/**
Whether a flow rule read back from a network card is the rule that was configured. A mask bit of
1 ignores that bit of the field, in the read-back and in the configuration alike; what is proved
is about the packets the two rules select.
*/
module FlowMatch {
  import opened Wrappers

  datatype FlowType = Ether | Ip4 | Tcp4 | Udp4 | Sctp4 | Ah4 | Esp4 | Ip6 | Tcp6 | Udp6 | Sctp6 | Ah6 | Esp6

  datatype FieldName =
    | SrcMac | DstMac | DstMacExt | SrcIp | DstIp | Tos | Tclass | SrcPort | DstPort | EtherType
    | VlanEtherType | Vlan | Proto | L4Proto | Spi | L4Data | UserDef | Raw(caption: string)

  datatype Action = DropPacket | ToQueue(queue: nat)

  datatype Labelled = Labelled(caption: string, value: string)

  datatype Field = Field(caption: string, value: string, mask: Option<string>)

  /** A parsed rule; `leftovers` says that it kept unparsed, missing or duplicate details. */
  datatype Rule = Rule(
    flowType: Option<Labelled>,
    action: Option<Labelled>,
    fields: map<FieldName, Field>,
    isPartial: bool,
    leftovers: bool)

  /** A configured rule: its values and masks as the texts they are compared as. `queue` is None
      when it is not an integer. */
  datatype Config = Config(
    flowType: string,
    queue: Option<int>,
    values: map<FieldName, string>,
    masks: map<FieldName, string>)

  /** What the matcher takes from outside: the label tables, and the library's readers of
      integers (base by prefix, else ten) and of addresses (version and value). */
  datatype Env = Env(
    strip: string -> string,
    flowTypeOf: string -> Option<FlowType>,
    isFlowLabel: string -> bool,
    isActionLabel: string -> bool,
    actionOf: string -> Option<Action>,
    fieldOf: string -> Option<FieldName>,
    isDestMacLabel: string -> bool,
    number: string -> Option<int>,
    ip: string -> Option<(nat, nat)>)

  // ---------- Values ----------

  function LowerChar(c: char): char { if 'A' <= c <= 'Z' then (c as int + 32) as char else c }

  function Lower(s: string): string { if s == [] then [] else Lower(s[..|s| - 1]) + [LowerChar(s[|s| - 1])] }

  predicate IsHex(c: char) { '0' <= c <= '9' || 'a' <= c <= 'f' || 'A' <= c <= 'F' }

  function HexValue(c: char): nat {
    if '0' <= c <= '9' then c as int - '0' as int
    else if 'a' <= c <= 'f' then c as int - 'a' as int + 10
    else if 'A' <= c <= 'F' then c as int - 'A' as int + 10
    else 0
  }

  /** Six pairs of hexadecimal digits, separated by colons. */
  predicate IsMac(s: string) {
    |s| == 17 && forall i :: 0 <= i < 17 ==> if i % 3 == 2 then s[i] == ':' else IsHex(s[i])
  }

  function MacBits(s: string): nat {
    if s == [] then 0
    else if s[|s| - 1] == ':' then MacBits(s[..|s| - 1])
    else 16 * MacBits(s[..|s| - 1]) + HexValue(s[|s| - 1])
  }

  const MAC_ZEROS := "00:00:00:00:00:00"
  const MAC_ONES := "ff:ff:ff:ff:ff:ff"

  datatype Normal = Number(n: int) | Address(version: nat, bits: nat) | Text(text: string)

  function Normalize(value: string, env: Env): Normal {
    var text := Lower(env.strip(value));
    if env.number(text).Some? then Number(env.number(text).value)
    else if env.ip(text).Some? then Address(env.ip(text).value.0, env.ip(text).value.1)
    else Text(text)
  }

  /** What the library promises of its readers. */
  ghost predicate Library(env: Env) {
    && (forall s: string {:trigger env.number(Lower(s))} :: env.number(Lower(s)) == env.number(s))
    && (forall s: string {:trigger env.ip(Lower(s))} :: env.ip(Lower(s)) == env.ip(s))
    && (forall s: string {:trigger env.ip(s)} :: env.ip(s).Some? ==> env.number(s).None?)
    && (forall s: string {:trigger IsMac(s)} :: IsMac(s) ==> env.number(s).None? && env.ip(s).None?)
  }

  predicate MacField(f: FieldName) { f.SrcMac? || f.DstMac? || f.DstMacExt? }

  predicate IpField(f: FieldName) { f.SrcIp? || f.DstIp? }

  predicate V4(t: FlowType) { t.Ip4? || t.Tcp4? || t.Udp4? || t.Sctp4? || t.Ah4? || t.Esp4? }

  predicate V6(t: FlowType) { t.Ip6? || t.Tcp6? || t.Udp6? || t.Sctp6? || t.Ah6? || t.Esp6? }

  function MaskWidth(f: FieldName, t: FlowType): Option<nat> {
    match f
    case SrcMac => Some(48)
    case DstMac => Some(48)
    case DstMacExt => Some(48)
    case SrcIp => if V4(t) then Some(32) else if V6(t) then Some(128) else None
    case DstIp => if V4(t) then Some(32) else if V6(t) then Some(128) else None
    case Tos => Some(8)
    case Tclass => Some(8)
    case SrcPort => Some(16)
    case DstPort => Some(16)
    case EtherType => Some(16)
    case VlanEtherType => Some(16)
    case Proto => Some(8)
    case L4Proto => Some(8)
    case L4Data => Some(32)
    case Spi => Some(32)
    case Vlan => Some(16)
    case UserDef => Some(64)
    case Raw(_) => None
  }

  function Pow2(n: nat): (r: nat)
    ensures r > 0
  {
    if n == 0 then 1 else 2 * Pow2(n - 1)
  }

  predicate TokenIsValid(value: string, f: FieldName, t: FlowType, env: Env) {
    var text := env.strip(value);
    if MacField(f) then IsMac(text)
    else if IpField(f) then
      env.ip(text).Some? && ((V4(t) && env.ip(text).value.0 == 4) || (V6(t) && env.ip(text).value.0 == 6))
    else
      MaskWidth(f, t).Some? && env.number(text).Some?
      && 0 <= env.number(text).value < Pow2(MaskWidth(f, t).value)
  }

  /** The mask ethtool reads back for an exact match. */
  function FullMatchMask(f: FieldName, t: FlowType): Option<Normal> {
    if MaskWidth(f, t).None? then None
    else if MacField(f) then Some(Text(MAC_ZEROS))
    else if IpField(f) then Some(Address(if MaskWidth(f, t) == Some(32) then 4 else 6, 0))
    else Some(Number(0))
  }

  predicate IsWildcardMask(value: Option<string>, f: FieldName, t: FlowType, env: Env) {
    var width := MaskWidth(f, t);
    && value.Some? && width.Some?
    && if MacField(f) then Normalize(value.value, env) == Text(MAC_ONES)
       else if IpField(f) then
         env.ip(env.strip(value.value)) == Some((if width == Some(32) then 4 else 6, Pow2(width.value) - 1))
       else Normalize(value.value, env) == Number(Pow2(width.value) - 1)
  }

  // ---------- The two checks ----------

  function RequiredFields(t: FlowType): set<FieldName> {
    match t
    case Ether => {SrcMac, DstMac, EtherType}
    case Ip4 => {SrcIp, DstIp, Tos, Proto, L4Data}
    case Tcp4 => {SrcIp, DstIp, Tos, SrcPort, DstPort}
    case Udp4 => {SrcIp, DstIp, Tos, SrcPort, DstPort}
    case Sctp4 => {SrcIp, DstIp, Tos, SrcPort, DstPort}
    case Ah4 => {SrcIp, DstIp, Tos, Spi}
    case Esp4 => {SrcIp, DstIp, Tos, Spi}
    case Ip6 => {SrcIp, DstIp, Tclass, Proto, L4Data}
    case Tcp6 => {SrcIp, DstIp, Tclass, SrcPort, DstPort}
    case Udp6 => {SrcIp, DstIp, Tclass, SrcPort, DstPort}
    case Sctp6 => {SrcIp, DstIp, Tclass, SrcPort, DstPort}
    case Ah6 => {SrcIp, DstIp, Tclass, Spi}
    case Esp6 => {SrcIp, DstIp, Tclass, Spi}
  }

  predicate FieldIsVerifiable(name: FieldName, f: Field, t: FlowType, env: Env) {
    && !name.Raw?
    && (if name.DstMacExt? then t.Ether? && env.isDestMacLabel(f.caption) else env.fieldOf(f.caption) == Some(name))
    && TokenIsValid(f.value, name, t, env)
    && f.mask.Some? && TokenIsValid(f.mask.value, name, t, env)
  }

  predicate IsVerifiable(actual: Rule, env: Env) {
    && !actual.isPartial && !actual.leftovers
    && actual.flowType.Some? && env.isFlowLabel(actual.flowType.value.caption)
    && env.flowTypeOf(actual.flowType.value.value).Some?
    && actual.action.Some? && env.isActionLabel(actual.action.value.caption)
    && env.actionOf(actual.action.value.value).Some?
    && var t := env.flowTypeOf(actual.flowType.value.value).value;
       && RequiredFields(t) <= actual.fields.Keys
       && forall name :: name in actual.fields ==> FieldIsVerifiable(name, actual.fields[name], t, env)
  }

  const CONFIG_FIELDS: set<FieldName> :=
    {SrcMac, DstMac, SrcIp, DstIp, Tos, SrcPort, DstPort, EtherType, VlanEtherType}

  /** Under which name a configured field is read back: `tos` is the traffic class of version 6. */
  function ReadBackName(f: FieldName, t: FlowType): FieldName {
    if f.Tos? && V6(t) then Tclass else f
  }

  /** The configured field that a read-back name stands for, if it was configured. */
  function ConfiguredAs(name: FieldName, configured: Config, t: FlowType): Option<FieldName> {
    var f := if name.Tclass? && V6(t) then Tos else name;
    if f in CONFIG_FIELDS && f in configured.values && ReadBackName(f, t) == name then Some(f) else None
  }

  /** There is no mask key for the VLAN ethertype. */
  function ConfiguredMask(f: FieldName, configured: Config): Option<string> {
    if f.VlanEtherType? then None else Get(configured.masks, f)
  }

  predicate FieldMatches(name: FieldName, actual: Field, configured: Config, t: FlowType, env: Env) {
    var expected := ConfiguredAs(name, configured, t);
    && TokenIsValid(actual.value, name, t, env)
    && actual.mask.Some? && TokenIsValid(actual.mask.value, name, t, env)
    && if expected.None? then IsWildcardMask(actual.mask, name, t, env)
       else
         var value := configured.values[expected.value];
         var mask := ConfiguredMask(expected.value, configured);
         && TokenIsValid(value, name, t, env)
         && Normalize(actual.value, env) == Normalize(value, env)
         && (mask.Some? ==> TokenIsValid(mask.value, name, t, env))
         && (if mask.Some? then Some(Normalize(mask.value, env)) else FullMatchMask(name, t)) ==
            Some(Normalize(actual.mask.value, env))
         && !IsWildcardMask(actual.mask, name, t, env)
  }

  predicate MatchesConfig(actual: Rule, configured: Config, env: Env) {
    && IsVerifiable(actual, env)
    && env.flowTypeOf(configured.flowType) == env.flowTypeOf(actual.flowType.value.value)
    && configured.queue.Some? && configured.queue.value >= -1
    && env.actionOf(actual.action.value.value) ==
       Some(if configured.queue.value == -1 then DropPacket else ToQueue(configured.queue.value))
    && var t := env.flowTypeOf(configured.flowType).value;
       && (forall name :: name in actual.fields ==> FieldMatches(name, actual.fields[name], configured, t, env))
       && (forall f :: f in CONFIG_FIELDS && f in configured.values ==> ReadBackName(f, t) in actual.fields)
  }

  // ---------- What the rules mean ----------

  predicate Bit(n: nat, i: nat) { if i == 0 then n % 2 == 1 else Bit(n / 2, i - 1) }

  /** The bits a valid token stands for. */
  function BitsOf(value: string, f: FieldName, t: FlowType, env: Env): nat
    requires TokenIsValid(value, f, t, env)
  {
    var text := env.strip(value);
    if MacField(f) then MacBits(text) else if IpField(f) then env.ip(text).value.1 else env.number(text).value
  }

  /** A mask bit of 1 ignores that bit; every other bit of the header must be the value's. */
  ghost predicate Selects(value: nat, mask: nat, width: nat, header: nat) {
    forall i :: 0 <= i < width && !Bit(mask, i) ==> Bit(header, i) == Bit(value, i)
  }

  /** A packet's header: its flow type and the bits of every field. */
  datatype Packet = Packet(flowType: FlowType, header: FieldName -> nat)

  function Width(name: FieldName, t: FlowType): nat {
    if MaskWidth(name, t).Some? then MaskWidth(name, t).value else 0
  }

  ghost predicate FieldSelects(name: FieldName, f: Field, t: FlowType, p: Packet, env: Env)
    requires FieldIsVerifiable(name, f, t, env)
  {
    Selects(BitsOf(f.value, name, t, env), BitsOf(f.mask.value, name, t, env), Width(name, t), p.header(name))
  }

  ghost predicate ReadBackSelects(actual: Rule, p: Packet, env: Env)
    requires IsVerifiable(actual, env)
  {
    var t := env.flowTypeOf(actual.flowType.value.value).value;
    && p.flowType == t
    && forall name :: name in actual.fields ==> FieldSelects(name, actual.fields[name], t, p, env)
  }

  /** What the configuration asks of one field: its value under its mask, or all of its bits. */
  ghost predicate ConfiguredFieldSelects(f: FieldName, configured: Config, t: FlowType, p: Packet, env: Env)
    requires f in configured.values
  {
    var name := ReadBackName(f, t);
    var value, mask := configured.values[f], ConfiguredMask(f, configured);
    && TokenIsValid(value, name, t, env) && (mask.Some? ==> TokenIsValid(mask.value, name, t, env))
    && Selects(BitsOf(value, name, t, env), if mask.Some? then BitsOf(mask.value, name, t, env) else 0,
               Width(name, t), p.header(name))
  }

  ghost predicate ConfiguredSelects(configured: Config, p: Packet, env: Env) {
    && env.flowTypeOf(configured.flowType) == Some(p.flowType)
    && forall f :: f in CONFIG_FIELDS && f in configured.values ==>
         ConfiguredFieldSelects(f, configured, p.flowType, p, env)
  }

  // ---------- Comparing texts is comparing bits ----------

  lemma {:induction false} LowerKeepsMac(s: string)
    ensures |Lower(s)| == |s| && forall i :: 0 <= i < |s| ==> Lower(s)[i] == LowerChar(s[i])
    ensures MacBits(Lower(s)) == MacBits(s)
  {
    if s != [] {
      LowerKeepsMac(s[..|s| - 1]);
      assert Lower(s)[..|s| - 1] == Lower(s[..|s| - 1]);
    }
  }

  lemma MacNormal(value: string, env: Env)
    requires Library(env) && IsMac(env.strip(value))
    ensures Normalize(value, env) == Text(Lower(env.strip(value)))
    ensures MacBits(Lower(env.strip(value))) == MacBits(env.strip(value))
  {
    var text := env.strip(value);
    LowerKeepsMac(text);
    assert IsMac(text);
    assert env.number(Lower(text)) == env.number(text) && env.ip(Lower(text)) == env.ip(text);
  }

  lemma AddressNormal(value: string, env: Env)
    requires Library(env) && env.ip(env.strip(value)).Some?
    ensures Normalize(value, env) == Address(env.ip(env.strip(value)).value.0, env.ip(env.strip(value)).value.1)
  {
    var text := env.strip(value);
    assert env.number(Lower(text)) == env.number(text) && env.ip(Lower(text)) == env.ip(text);
  }

  lemma NumberNormal(value: string, env: Env)
    requires Library(env) && env.number(env.strip(value)).Some?
    ensures Normalize(value, env) == Number(env.number(env.strip(value)).value)
  {
    assert env.number(Lower(env.strip(value))) == env.number(env.strip(value));
  }

  lemma SameNormalSameBits(a: string, b: string, f: FieldName, t: FlowType, env: Env)
    requires Library(env) && TokenIsValid(a, f, t, env) && TokenIsValid(b, f, t, env)
    requires Normalize(a, env) == Normalize(b, env)
    ensures BitsOf(a, f, t, env) == BitsOf(b, f, t, env)
  {
    if MacField(f) {
      MacNormal(a, env);
      MacNormal(b, env);
    } else if IpField(f) {
      AddressNormal(a, env);
      AddressNormal(b, env);
    } else {
      NumberNormal(a, env);
      NumberNormal(b, env);
    }
  }

  lemma {:induction false} ZerosAreZero(s: string)
    requires forall i :: 0 <= i < |s| ==> s[i] == '0' || s[i] == ':'
    ensures MacBits(s) == 0
  {
    if s != [] {
      ZerosAreZero(s[..|s| - 1]);
    }
  }

  function Digits(s: string): nat {
    if s == [] then 0 else Digits(s[..|s| - 1]) + if s[|s| - 1] == ':' then 0 else 1
  }

  lemma {:induction false} OnesAreOnes(s: string)
    requires forall i :: 0 <= i < |s| ==> s[i] == 'f' || s[i] == ':'
    ensures MacBits(s) == Pow2(4 * Digits(s)) - 1
  {
    if s != [] {
      OnesAreOnes(s[..|s| - 1]);
      var n := 4 * Digits(s[..|s| - 1]);
      assert Pow2(n + 4) == 2 * Pow2(n + 3) == 4 * Pow2(n + 2) == 8 * Pow2(n + 1) == 16 * Pow2(n);
    }
  }

  lemma OneMoreDigit(s: string, c: char)
    ensures Digits(s + [c]) == Digits(s) + if c == ':' then 0 else 1
  {
    assert (s + [c])[..|s|] == s;
  }

  /** A colon and two digits. */
  lemma OneMorePair(s: string, a: char, b: char)
    requires a != ':' && b != ':'
    ensures Digits(s + [':', a, b]) == Digits(s) + 2
  {
    OneMoreDigit(s, ':');
    OneMoreDigit(s + [':'], a);
    OneMoreDigit(s + [':'] + [a], b);
    assert s + [':'] + [a] + [b] == s + [':', a, b];
  }

  /** Pairs of digits behind the first, each after a colon. */
  function PairsOf(c: char, n: nat): (s: string)
  {
    if n == 0 then [c, c] else PairsOf(c, n - 1) + [':', c, c]
  }

  lemma {:induction false} PairDigits(c: char, n: nat)
    requires c != ':'
    ensures Digits(PairsOf(c, n)) == 2 * n + 2
  {
    if n == 0 {
      OneMoreDigit([], c);
      OneMoreDigit([c], c);
      assert [] + [c] == [c] && [c] + [c] == [c, c];
    } else {
      PairDigits(c, n - 1);
      OneMorePair(PairsOf(c, n - 1), c, c);
    }
  }

  lemma MacOnesInPairs()
    ensures PairsOf('f', 5) == MAC_ONES
  {
    assert PairsOf('f', 1) == "ff:ff";
    assert PairsOf('f', 2) == "ff:ff:ff";
    assert PairsOf('f', 3) == "ff:ff:ff:ff";
    assert PairsOf('f', 4) == "ff:ff:ff:ff:ff";
  }

  lemma {:induction false} PairsAreOnes(n: nat)
    ensures MacBits(PairsOf('f', n)) == Pow2(8 * n + 8) - 1
    ensures forall i :: 0 <= i < |PairsOf('f', n)| ==> PairsOf('f', n)[i] == 'f' || PairsOf('f', n)[i] == ':'
  {
    if n > 0 {
      PairsAreOnes(n - 1);
    }
    OnesAreOnes(PairsOf('f', n));
    PairDigits('f', n);
  }

  lemma FullMaskIsZero(mask: string, f: FieldName, t: FlowType, env: Env)
    requires Library(env) && TokenIsValid(mask, f, t, env)
    requires FullMatchMask(f, t) == Some(Normalize(mask, env))
    ensures BitsOf(mask, f, t, env) == 0
  {
    if MacField(f) {
      MacNormal(mask, env);
      ZerosAreZero(MAC_ZEROS);
    } else if IpField(f) {
      AddressNormal(mask, env);
    } else {
      NumberNormal(mask, env);
    }
  }

  lemma MacOfOnes(mask: string, env: Env)
    requires Library(env) && IsMac(env.strip(mask)) && Normalize(mask, env) == Text(MAC_ONES)
    ensures MacBits(env.strip(mask)) == Pow2(48) - 1
  {
    MacNormal(mask, env);
    MacOnesInPairs();
    PairsAreOnes(5);
  }

  lemma WildcardIsAllOnes(mask: string, f: FieldName, t: FlowType, env: Env)
    requires Library(env) && TokenIsValid(mask, f, t, env) && IsWildcardMask(Some(mask), f, t, env)
    ensures BitsOf(mask, f, t, env) == Pow2(Width(f, t)) - 1
  {
    if MacField(f) {
      MacOfOnes(mask, env);
    } else if !IpField(f) {
      NumberNormal(mask, env);
    }
  }

  // ---------- Masks ----------

  predicate IgnoresAll(mask: nat, width: nat) { forall i :: 0 <= i < width ==> Bit(mask, i) }

  lemma {:induction false} OnesIgnore(w: nat, i: nat)
    requires i < w
    ensures Bit(Pow2(w) - 1, i)
  {
    assert (Pow2(w) - 1) / 2 == Pow2(w - 1) - 1;
    if i > 0 {
      OnesIgnore(w - 1, i - 1);
    }
  }

  /** The mask of an exact match compares every bit. */
  lemma {:induction false} ZeroIgnoresNothing(i: nat)
    ensures !Bit(0, i)
  {
    if i > 0 {
      ZeroIgnoresNothing(i - 1);
    }
  }

  lemma WildcardIgnoresAll(mask: nat, width: nat)
    requires mask == Pow2(width) - 1
    ensures IgnoresAll(mask, width)
  {
    forall i | 0 <= i < width
      ensures Bit(mask, i)
    {
      OnesIgnore(width, i);
    }
  }

  // ---------- The main result ----------

  /** A field that stands for a configured one has the same value bits and mask bits. */
  lemma SameBits(name: FieldName, f: FieldName, actual: Field, configured: Config, t: FlowType, env: Env)
    requires Library(env) && FieldMatches(name, actual, configured, t, env)
    requires ConfiguredAs(name, configured, t) == Some(f)
    ensures var value, mask := configured.values[f], ConfiguredMask(f, configured);
      && TokenIsValid(value, name, t, env) && (mask.Some? ==> TokenIsValid(mask.value, name, t, env))
      && BitsOf(actual.value, name, t, env) == BitsOf(value, name, t, env)
      && BitsOf(actual.mask.value, name, t, env) == if mask.Some? then BitsOf(mask.value, name, t, env) else 0
  {
    var mask := ConfiguredMask(f, configured);
    SameNormalSameBits(actual.value, configured.values[f], name, t, env);
    if mask.Some? {
      SameNormalSameBits(actual.mask.value, mask.value, name, t, env);
    } else {
      FullMaskIsZero(actual.mask.value, name, t, env);
    }
  }

  lemma ConfiguredFieldAgrees(name: FieldName, f: FieldName, actual: Field, configured: Config, t: FlowType,
                              p: Packet, env: Env)
    requires Library(env) && FieldIsVerifiable(name, actual, t, env) && FieldMatches(name, actual, configured, t, env)
    requires ConfiguredAs(name, configured, t) == Some(f)
    ensures FieldSelects(name, actual, t, p, env) <==> ConfiguredFieldSelects(f, configured, t, p, env)
  {
    SameBits(name, f, actual, configured, t, env);
    assert ReadBackName(f, t) == name;
  }

  /** A field that was not configured ignores all of its bits. */
  lemma UnconfiguredFieldIgnoresAll(name: FieldName, actual: Field, configured: Config, t: FlowType, p: Packet, env: Env)
    requires Library(env) && FieldIsVerifiable(name, actual, t, env)
    requires FieldMatches(name, actual, configured, t, env) && ConfiguredAs(name, configured, t).None?
    ensures IgnoresAll(BitsOf(actual.mask.value, name, t, env), Width(name, t))
    ensures FieldSelects(name, actual, t, p, env)
  {
    WildcardIsAllOnes(actual.mask.value, name, t, env);
    WildcardIgnoresAll(BitsOf(actual.mask.value, name, t, env), Width(name, t));
  }

  lemma NamesAreTold(f: FieldName, configured: Config, t: FlowType)
    requires f in CONFIG_FIELDS && f in configured.values
    ensures ConfiguredAs(ReadBackName(f, t), configured, t) == Some(f)
  {
  }

  lemma SelectedIsConfigured(actual: Rule, configured: Config, p: Packet, env: Env)
    requires Library(env) && MatchesConfig(actual, configured, env) && ReadBackSelects(actual, p, env)
    ensures ConfiguredSelects(configured, p, env)
  {
    var t := p.flowType;
    forall f | f in CONFIG_FIELDS && f in configured.values
      ensures ConfiguredFieldSelects(f, configured, t, p, env)
    {
      var name := ReadBackName(f, t);
      NamesAreTold(f, configured, t);
      ConfiguredFieldAgrees(name, f, actual.fields[name], configured, t, p, env);
    }
  }

  lemma ConfiguredIsSelected(actual: Rule, configured: Config, p: Packet, env: Env)
    requires Library(env) && MatchesConfig(actual, configured, env) && ConfiguredSelects(configured, p, env)
    ensures ReadBackSelects(actual, p, env)
  {
    var t := p.flowType;
    forall name | name in actual.fields
      ensures FieldSelects(name, actual.fields[name], t, p, env)
    {
      var expected := ConfiguredAs(name, configured, t);
      if expected.None? {
        UnconfiguredFieldIgnoresAll(name, actual.fields[name], configured, t, p, env);
      } else {
        ConfiguredFieldAgrees(name, expected.value, actual.fields[name], configured, t, p, env);
      }
    }
  }

  /** An accepted rule selects exactly the packets that the configured rule selects, and does the
      same with them. */
  lemma AcceptedSelectsTheSame(actual: Rule, configured: Config, p: Packet, env: Env)
    requires Library(env) && MatchesConfig(actual, configured, env)
    ensures ReadBackSelects(actual, p, env) <==> ConfiguredSelects(configured, p, env)
    ensures env.actionOf(actual.action.value.value) ==
            Some(if configured.queue.value == -1 then DropPacket else ToQueue(configured.queue.value))
  {
    if ReadBackSelects(actual, p, env) {
      SelectedIsConfigured(actual, configured, p, env);
    }
    if ConfiguredSelects(configured, p, env) {
      ConfiguredIsSelected(actual, configured, p, env);
    }
  }
}
