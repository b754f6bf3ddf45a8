/**
 * The canonical text an owner signs to register or deregister (version 2), and a parser that shows
 * that the text names exactly one set of fields.
 */
module AuthMessage {
  import opened Prelude

  const REGISTER_DOMAIN_V2 := "DMV_NOTIFY_REGISTER_V2"
  const DEREGISTER_DOMAIN_V2 := "DMV_NOTIFY_DEREGISTER_V2"
  const NOTIFY_AUDIENCE := "https://notify.palatinearc.com"
  const MAX_SAFE_INTEGER := 9007199254740991

  datatype RegisterFields = RegisterFields(
    cluster: string, programId: Pubkey, owner: Pubkey, vault: Pubkey, deviceTokenHash: string,
    stage1: int, stage2: int, stage3: int, revision: int, timestamp: int, nonce: string)

  datatype DeregisterFields = DeregisterFields(
    cluster: string, programId: Pubkey, owner: Pubkey, vault: Pubkey, timestamp: int, nonce: string)

  // ---- field validators ----

  predicate IsBase58Char(c: char) {
    '1' <= c <= '9' || 'A' <= c <= 'H' || 'J' <= c <= 'N' || 'P' <= c <= 'Z' || 'a' <= c <= 'k' || 'm' <= c <= 'z'
  }

  predicate IsBase58(s: string) {
    s != [] && forall i :: 0 <= i < |s| ==> IsBase58Char(s[i])
  }

  predicate IsHexChar(c: char) {
    '0' <= c <= '9' || 'a' <= c <= 'f'
  }

  predicate ValidCluster(c: string) {
    c == "devnet" || c == "mainnet-beta"
  }

  /**
   * Decoding to 32 bytes and encoding back to the same text is left to `canonical`; of Base58 only the
   * alphabet matters here.
   */
  predicate ValidPubkey(canonical: string -> bool, k: string) {
    IsBase58(k) && canonical(k)
  }

  predicate ValidTokenHash(h: string) {
    |h| == 64 && forall i :: 0 <= i < |h| ==> IsHexChar(h[i])
  }

  predicate ValidPosInt(n: int) {
    0 < n <= MAX_SAFE_INTEGER
  }

  predicate ValidNonce(x: string) {
    22 <= |x| <= 64 && IsBase58(x)
  }

  predicate ValidRegister(canonical: string -> bool, f: RegisterFields) {
    && ValidCluster(f.cluster)
    && ValidPubkey(canonical, f.programId) && ValidPubkey(canonical, f.owner) && ValidPubkey(canonical, f.vault)
    && ValidTokenHash(f.deviceTokenHash)
    && ValidPosInt(f.stage1) && ValidPosInt(f.stage2) && ValidPosInt(f.stage3)
    && ValidPosInt(f.revision) && ValidPosInt(f.timestamp)
    && ValidNonce(f.nonce)
  }

  predicate ValidDeregister(canonical: string -> bool, f: DeregisterFields) {
    && ValidCluster(f.cluster)
    && ValidPubkey(canonical, f.programId) && ValidPubkey(canonical, f.owner) && ValidPubkey(canonical, f.vault)
    && ValidPosInt(f.timestamp)
    && ValidNonce(f.nonce)
  }

  // ---- builders ----

  function Digit(d: nat): char
    requires d < 10
  {
    '0' + d as char
  }

  /** `String(n)` */
  function Decimal(n: nat): string {
    if n < 10 then [Digit(n)] else Decimal(n / 10) + [Digit(n % 10)]
  }

  function Join(lines: seq<string>): string
    requires lines != []
  {
    if |lines| == 1 then lines[0] else lines[0] + "\n" + Join(lines[1..])
  }

  function RegisterLines(f: RegisterFields): seq<string>
    requires f.stage1 >= 0 && f.stage2 >= 0 && f.stage3 >= 0 && f.revision >= 0 && f.timestamp >= 0
  {
    [REGISTER_DOMAIN_V2,
     "version=" + "2",
     "cluster=" + f.cluster,
     "programId=" + f.programId,
     "audience=" + NOTIFY_AUDIENCE,
     "action=" + "register",
     "owner=" + f.owner,
     "vault=" + f.vault,
     "deviceTokenHash=" + f.deviceTokenHash,
     "stage1=" + Decimal(f.stage1),
     "stage2=" + Decimal(f.stage2),
     "stage3=" + Decimal(f.stage3),
     "revision=" + Decimal(f.revision),
     "timestamp=" + Decimal(f.timestamp),
     "nonce=" + f.nonce]
  }

  function DeregisterLines(f: DeregisterFields): seq<string>
    requires f.timestamp >= 0
  {
    [DEREGISTER_DOMAIN_V2,
     "version=" + "2",
     "cluster=" + f.cluster,
     "programId=" + f.programId,
     "audience=" + NOTIFY_AUDIENCE,
     "action=" + "deregister",
     "owner=" + f.owner,
     "vault=" + f.vault,
     "timestamp=" + Decimal(f.timestamp),
     "nonce=" + f.nonce]
  }

  /** A field that fails its validator throws, here `None`. */
  function RegisterMessageV2(canonical: string -> bool, f: RegisterFields): Option<string> {
    if ValidRegister(canonical, f) then Some(Join(RegisterLines(f))) else None
  }

  function DeregisterMessageV2(canonical: string -> bool, f: DeregisterFields): Option<string> {
    if ValidDeregister(canonical, f) then Some(Join(DeregisterLines(f))) else None
  }

  // ---- what is accepted ----

  /** Letters and digits without the four that are easily confused. */
  predicate InAlphabet(s: string) {
    forall i :: 0 <= i < |s| ==> ('0' <= s[i] <= '9' || 'A' <= s[i] <= 'Z' || 'a' <= s[i] <= 'z') && s[i] !in "0OIl"
  }

  predicate IsKey(canonical: string -> bool, k: string) {
    k != "" && InAlphabet(k) && canonical(k)
  }

  lemma Base58IsAlphabet(s: string)
    ensures IsBase58(s) <==> s != "" && InAlphabet(s)
  {
  }

  /** A registration has a text exactly if every field has its form. */
  lemma RegisterWrittenWhenFormed(canonical: string -> bool, f: RegisterFields)
    ensures RegisterMessageV2(canonical, f).Some? <==>
            && (f.cluster == "devnet" || f.cluster == "mainnet-beta")
            && IsKey(canonical, f.programId) && IsKey(canonical, f.owner) && IsKey(canonical, f.vault)
            && |f.deviceTokenHash| == 64 && (forall i :: 0 <= i < |f.deviceTokenHash| ==> f.deviceTokenHash[i] in "0123456789abcdef")
            && 1 <= f.stage1 <= 9007199254740991 && 1 <= f.stage2 <= 9007199254740991 && 1 <= f.stage3 <= 9007199254740991
            && 1 <= f.revision <= 9007199254740991 && 1 <= f.timestamp <= 9007199254740991
            && 22 <= |f.nonce| <= 64 && InAlphabet(f.nonce)
  {
    Base58IsAlphabet(f.programId);
    Base58IsAlphabet(f.owner);
    Base58IsAlphabet(f.vault);
    Base58IsAlphabet(f.nonce);
    TokenHashIsHex(f.deviceTokenHash);
  }

  lemma TokenHashIsHex(h: string)
    ensures ValidTokenHash(h) <==> |h| == 64 && forall i :: 0 <= i < |h| ==> h[i] in "0123456789abcdef"
  {
    forall i | 0 <= i < |h| ensures IsHexChar(h[i]) <==> h[i] in "0123456789abcdef" {
      HexDigits(h[i]);
    }
  }

  lemma HexDigits(c: char)
    ensures IsHexChar(c) <==> c in "0123456789abcdef"
  {
    var h := "0123456789abcdef";
    if '0' <= c <= '9' {
      assert h[c as int - '0' as int] == c;
    } else if 'a' <= c <= 'f' {
      assert h[10 + c as int - 'a' as int] == c;
    }
  }

  /** A removal likewise. */
  lemma DeregisterWrittenWhenFormed(canonical: string -> bool, f: DeregisterFields)
    ensures DeregisterMessageV2(canonical, f).Some? <==>
            && (f.cluster == "devnet" || f.cluster == "mainnet-beta")
            && IsKey(canonical, f.programId) && IsKey(canonical, f.owner) && IsKey(canonical, f.vault)
            && 1 <= f.timestamp <= 9007199254740991
            && 22 <= |f.nonce| <= 64 && InAlphabet(f.nonce)
  {
    Base58IsAlphabet(f.programId);
    Base58IsAlphabet(f.owner);
    Base58IsAlphabet(f.vault);
    Base58IsAlphabet(f.nonce);
  }

  // ---- an independent reading of the text ----

  function Split(text: string): (lines: seq<string>)
    ensures lines != []
    decreases |text|
  {
    if '\n' !in text then [text]
    else
      var i := FirstBreak(text);
      [text[..i]] + Split(text[i + 1..])
  }

  function FirstBreak(text: string): (i: nat)
    requires '\n' in text
    ensures i < |text| && text[i] == '\n' && '\n' !in text[..i]
  {
    if text[0] == '\n' then 0
    else
      assert text == [text[0]] + text[1..];
      var i := FirstBreak(text[1..]);
      assert text[..i + 1] == [text[0]] + text[1..][..i];
      i + 1
  }

  function After(name: string, line: string): Option<string> {
    if name <= line then Some(line[|name|..]) else None
  }

  function ReadDecimal(s: string): int {
    if s == [] then 0 else 10 * ReadDecimal(s[..|s| - 1]) + (s[|s| - 1] as int - '0' as int)
  }

  function Text(o: Option<string>): string {
    if o.Some? then o.value else ""
  }

  function ParseRegister(text: string): Option<RegisterFields> {
    var l := Split(text);
    if |l| != 15 || l[0] != REGISTER_DOMAIN_V2 then None
    else Some(RegisterFields(
      Text(After("cluster=", l[2])), Text(After("programId=", l[3])),
      Text(After("owner=", l[6])), Text(After("vault=", l[7])), Text(After("deviceTokenHash=", l[8])),
      ReadDecimal(Text(After("stage1=", l[9]))), ReadDecimal(Text(After("stage2=", l[10]))),
      ReadDecimal(Text(After("stage3=", l[11]))), ReadDecimal(Text(After("revision=", l[12]))),
      ReadDecimal(Text(After("timestamp=", l[13]))), Text(After("nonce=", l[14]))))
  }

  function ParseDeregister(text: string): Option<DeregisterFields> {
    var l := Split(text);
    if |l| != 10 || l[0] != DEREGISTER_DOMAIN_V2 then None
    else Some(DeregisterFields(
      Text(After("cluster=", l[2])), Text(After("programId=", l[3])),
      Text(After("owner=", l[6])), Text(After("vault=", l[7])),
      ReadDecimal(Text(After("timestamp=", l[8]))), Text(After("nonce=", l[9]))))
  }

  // ---- round trips ----

  lemma {:induction false} DecimalReadsBack(n: nat)
    ensures ReadDecimal(Decimal(n)) == n
    ensures '\n' !in Decimal(n)
  {
    if n < 10 {
      assert Decimal(n)[..0] == [];
    } else {
      DecimalReadsBack(n / 10);
      var d := Decimal(n);
      assert d[..|d| - 1] == Decimal(n / 10);
    }
  }

  ghost predicate NoBreaks(lines: seq<string>) {
    forall i :: 0 <= i < |lines| ==> '\n' !in lines[i]
  }

  lemma {:induction false} FirstBreakEndsLine(line: string, rest: string)
    requires '\n' !in line
    ensures '\n' in line + "\n" + rest && FirstBreak(line + "\n" + rest) == |line|
  {
    var text := line + "\n" + rest;
    assert text[|line|] == '\n';
    if line != "" {
      assert text[0] == line[0];
      assert text[1..] == line[1..] + "\n" + rest;
      FirstBreakEndsLine(line[1..], rest);
    }
  }

  lemma {:induction false} SplitUndoesJoin(lines: seq<string>)
    requires lines != [] && NoBreaks(lines)
    ensures Split(Join(lines)) == lines
  {
    if |lines| == 1 {
      assert lines == [lines[0]];
    } else {
      var rest := Join(lines[1..]);
      var text := lines[0] + "\n" + rest;
      FirstBreakEndsLine(lines[0], rest);
      assert text[..|lines[0]|] == lines[0] && text[|lines[0]| + 1..] == rest;
      SplitUndoesJoin(lines[1..]);
    }
  }

  lemma Base58HasNoBreak(s: string)
    requires IsBase58(s)
    ensures '\n' !in s
  {
    assert forall i :: 0 <= i < |s| ==> IsBase58Char(s[i]);
  }

  lemma AfterName(name: string, value: string)
    ensures After(name, name + value) == Some(value)
    ensures '\n' !in name && '\n' !in value ==> '\n' !in name + value
  {
  }

  lemma RegisterTextsAreLines(canonical: string -> bool, f: RegisterFields)
    requires ValidRegister(canonical, f)
    ensures '\n' !in f.cluster && '\n' !in f.programId && '\n' !in f.owner && '\n' !in f.vault
            && '\n' !in f.deviceTokenHash && '\n' !in f.nonce
  {
    hide Decimal, ReadDecimal, IsBase58;
    Base58HasNoBreak(f.programId);
    Base58HasNoBreak(f.owner);
    Base58HasNoBreak(f.vault);
    Base58HasNoBreak(f.nonce);
  }

  lemma RegisterNumbersAreLines(canonical: string -> bool, f: RegisterFields)
    requires ValidRegister(canonical, f)
    ensures f.stage1 >= 0 && f.stage2 >= 0 && f.stage3 >= 0 && f.revision >= 0 && f.timestamp >= 0
    ensures '\n' !in Decimal(f.stage1) && '\n' !in Decimal(f.stage2) && '\n' !in Decimal(f.stage3)
            && '\n' !in Decimal(f.revision) && '\n' !in Decimal(f.timestamp)
  {
    hide Decimal, ReadDecimal, IsBase58;
    DecimalReadsBack(f.stage1);
    DecimalReadsBack(f.stage2);
    DecimalReadsBack(f.stage3);
    DecimalReadsBack(f.revision);
    DecimalReadsBack(f.timestamp);
  }

  lemma RegisterHeadIsLines(f: RegisterFields)
    requires f.stage1 >= 0 && f.stage2 >= 0 && f.stage3 >= 0 && f.revision >= 0 && f.timestamp >= 0
    requires '\n' !in f.cluster && '\n' !in f.programId && '\n' !in f.owner && '\n' !in f.vault
    ensures |RegisterLines(f)| == 15 && NoBreaks(RegisterLines(f)[..8])
  {
    hide Decimal;
  }

  lemma RegisterTailIsLines(f: RegisterFields)
    requires f.stage1 >= 0 && f.stage2 >= 0 && f.stage3 >= 0 && f.revision >= 0 && f.timestamp >= 0
    requires '\n' !in f.deviceTokenHash && '\n' !in f.nonce
    requires '\n' !in Decimal(f.stage1) && '\n' !in Decimal(f.stage2) && '\n' !in Decimal(f.stage3)
    requires '\n' !in Decimal(f.revision) && '\n' !in Decimal(f.timestamp)
    ensures |RegisterLines(f)| == 15 && NoBreaks(RegisterLines(f)[8..])
  {
    hide Decimal;
  }

  lemma RegisterLinesAreLines(canonical: string -> bool, f: RegisterFields)
    requires ValidRegister(canonical, f)
    ensures f.stage1 >= 0 && f.stage2 >= 0 && f.stage3 >= 0 && f.revision >= 0 && f.timestamp >= 0
    ensures NoBreaks(RegisterLines(f))
  {
    hide ValidRegister, Decimal, RegisterLines;
    RegisterTextsAreLines(canonical, f);
    RegisterNumbersAreLines(canonical, f);
    RegisterHeadIsLines(f);
    RegisterTailIsLines(f);
    var lines := RegisterLines(f);
    forall i | 0 <= i < |lines| ensures '\n' !in lines[i] {
      if i < 8 {
        assert lines[..8][i] == lines[i];
      } else {
        assert lines[8..][i - 8] == lines[i];
      }
    }
  }

  lemma DeregisterFieldsAreLines(canonical: string -> bool, f: DeregisterFields)
    requires ValidDeregister(canonical, f)
    ensures f.timestamp >= 0 && '\n' !in f.cluster && '\n' !in f.programId && '\n' !in f.owner && '\n' !in f.vault
            && '\n' !in Decimal(f.timestamp) && '\n' !in f.nonce
  {
    hide Decimal, ReadDecimal, IsBase58;
    Base58HasNoBreak(f.programId);
    Base58HasNoBreak(f.owner);
    Base58HasNoBreak(f.vault);
    Base58HasNoBreak(f.nonce);
    DecimalReadsBack(f.timestamp);
  }

  lemma DeregisterLinesAreLines(canonical: string -> bool, f: DeregisterFields)
    requires ValidDeregister(canonical, f)
    ensures f.timestamp >= 0 && NoBreaks(DeregisterLines(f))
  {
    hide ValidDeregister, Decimal;
    DeregisterFieldsAreLines(canonical, f);
  }

  /** Every field of an accepted registration can be read back from the text that is signed. */
  lemma RegisterReadsBack(canonical: string -> bool, f: RegisterFields)
    requires RegisterMessageV2(canonical, f).Some?
    ensures ParseRegister(RegisterMessageV2(canonical, f).value) == Some(f)
  {
    RegisterLinesAreLines(canonical, f);
    SplitUndoesJoin(RegisterLines(f));
    hide ValidRegister, Join, Split, After, Decimal, ReadDecimal, NoBreaks;
    AfterName("cluster=", f.cluster);
    AfterName("programId=", f.programId);
    AfterName("owner=", f.owner);
    AfterName("vault=", f.vault);
    AfterName("deviceTokenHash=", f.deviceTokenHash);
    AfterName("stage1=", Decimal(f.stage1));
    AfterName("stage2=", Decimal(f.stage2));
    AfterName("stage3=", Decimal(f.stage3));
    AfterName("revision=", Decimal(f.revision));
    AfterName("timestamp=", Decimal(f.timestamp));
    AfterName("nonce=", f.nonce);
    DecimalReadsBack(f.stage1);
    DecimalReadsBack(f.stage2);
    DecimalReadsBack(f.stage3);
    DecimalReadsBack(f.revision);
    DecimalReadsBack(f.timestamp);
  }

  lemma DeregisterReadsBack(canonical: string -> bool, f: DeregisterFields)
    requires DeregisterMessageV2(canonical, f).Some?
    ensures ParseDeregister(DeregisterMessageV2(canonical, f).value) == Some(f)
  {
    DeregisterLinesAreLines(canonical, f);
    SplitUndoesJoin(DeregisterLines(f));
    DecimalReadsBack(f.timestamp);
  }

  /** Equal texts come from equal fields. */
  lemma RegisterUnambiguous(canonical: string -> bool, f: RegisterFields, g: RegisterFields)
    requires RegisterMessageV2(canonical, f).Some? && RegisterMessageV2(canonical, f) == RegisterMessageV2(canonical, g)
    ensures f == g
  {
    RegisterReadsBack(canonical, f);
    RegisterReadsBack(canonical, g);
  }

  lemma DeregisterUnambiguous(canonical: string -> bool, f: DeregisterFields, g: DeregisterFields)
    requires DeregisterMessageV2(canonical, f).Some? && DeregisterMessageV2(canonical, f) == DeregisterMessageV2(canonical, g)
    ensures f == g
  {
    DeregisterReadsBack(canonical, f);
    DeregisterReadsBack(canonical, g);
  }

  /** A signature for one action is never one for the other. */
  lemma ActionsNeverShareText(canonical: string -> bool, f: RegisterFields, g: DeregisterFields)
    requires RegisterMessageV2(canonical, f).Some? && DeregisterMessageV2(canonical, g).Some?
    ensures RegisterMessageV2(canonical, f) != DeregisterMessageV2(canonical, g)
  {
    RegisterLinesAreLines(canonical, f);
    DeregisterLinesAreLines(canonical, g);
    SplitUndoesJoin(RegisterLines(f));
    SplitUndoesJoin(DeregisterLines(g));
    assert |RegisterLines(f)| != |DeregisterLines(g)|;
  }
}
