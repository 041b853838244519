/**
 * How the map of settings to recover is written to and read back from the settings, with JSON
 * text abstracted to a list of members.
 */
module RecoverJson {
  import opened PowerTypes

  const TWO_TO_THE_31: int := 0x8000_0000
  const TWO_TO_THE_32: int := 0x1_0000_0000

  type uint32 = x: int | 0 <= x < TWO_TO_THE_32
  type int32 = x: int | -TWO_TO_THE_31 <= x < TWO_TO_THE_31

  type SwitchMap = map<uint32, int32>

  /** The width of `long`, which `strtol` returns. */
  datatype Platform = ILP32 | LP64

  /** A member of a JSON object (or an element of an array, without key), and its value if that is a number. */
  datatype Member = Member(key: Option<string>, number: Option<int>)

  datatype Json = Unparsable | Scalar | Container(members: seq<Member>)

  // ---------------------------------------------------------------------------------------
  // Conversions between integers

  function Wrap32(x: int): int32 { (x + TWO_TO_THE_31) % TWO_TO_THE_32 - TWO_TO_THE_31 }

  function Unsigned(x: int32): uint32 { x % TWO_TO_THE_32 }

  function LongMax(p: Platform): int { if p.ILP32? then 0x7FFF_FFFF else 0x7FFF_FFFF_FFFF_FFFF }

  function Saturate(x: int, max: int): int
    requires max >= 0
  {
    if x > max then max else if x < -max - 1 then -max - 1 else x
  }

  lemma WrapIsInverse(k: uint32)
    ensures Unsigned(Wrap32(k)) == k
  {
    if k < TWO_TO_THE_31 {
      assert Wrap32(k) == k;
    } else {
      assert Wrap32(k) == k - TWO_TO_THE_32;
    }
  }

  // ---------------------------------------------------------------------------------------
  // Decimal text

  predicate IsDigit(c: char) { '0' <= c <= '9' }

  predicate IsSpace(c: char) { c == ' ' || '\t' <= c <= '\r' }

  predicate AllDigits(s: string) { forall c :: c in s ==> IsDigit(c) }

  predicate AllSpace(s: string) { forall c :: c in s ==> IsSpace(c) }

  function DigitChar(d: nat): char
    requires d < 10
  {
    '0' + d as char
  }

  /** std::to_string of an unsigned number. */
  function ToString(n: nat): string {
    if n < 10 then [DigitChar(n)] else ToString(n / 10) + [DigitChar(n % 10)]
  }

  function DigitValue(c: char): nat
    requires IsDigit(c)
  {
    (c - '0') as nat
  }

  function Signed(minus: bool, n: int): int { if minus then -n else n }

  function Value(s: string): nat
    requires AllDigits(s)
  {
    if s == [] then 0 else 10 * Value(s[..|s| - 1]) + DigitValue(s[|s| - 1])
  }

  lemma {:induction false} ToStringValue(n: nat)
    ensures ToString(n) != [] && AllDigits(ToString(n)) && Value(ToString(n)) == n
  {
    if n >= 10 {
      ToStringValue(n / 10);
      var s := ToString(n);
      assert s[..|s| - 1] == ToString(n / 10);
    }
  }

  /** Length of the longest prefix of white space. */
  function SpaceLen(s: string): (n: nat)
    ensures n <= |s| && AllSpace(s[..n]) && (n < |s| ==> !IsSpace(s[n]))
  {
    if s == [] || !IsSpace(s[0]) then 0 else
      var n := 1 + SpaceLen(s[1..]);
      assert s[..n] == [s[0]] + s[1..][..n - 1];
      n
  }

  /** Length of the longest prefix of digits. */
  function DigitLen(s: string): (n: nat)
    ensures n <= |s| && AllDigits(s[..n]) && (n < |s| ==> !IsDigit(s[n]))
  {
    if s == [] || !IsDigit(s[0]) then 0 else
      var n := 1 + DigitLen(s[1..]);
      assert s[..n] == [s[0]] + s[1..][..n - 1];
      n
  }

  predicate IsSign(c: char) { c == '+' || c == '-' }

  function SignLen(s: string): nat { if s != [] && IsSign(s[0]) then 1 else 0 }

  /** The result of strtol: the number, where the text that is not converted begins, and whether errno is ERANGE. */
  datatype Converted = Converted(number: int, end: nat, outOfRange: bool)

  function Strtol(p: Platform, s: string): (r: Converted)
    ensures r.end <= |s|
  {
    var a := SpaceLen(s);
    var b := a + SignLen(s[a..]);
    var n := DigitLen(s[b..]);
    if n == 0 then Converted(0, 0, false)
    else
      var x := Signed(b > a && s[a] == '-', Value(s[b..][..n]));
      Converted(Saturate(x, LongMax(p)), b + n, Saturate(x, LongMax(p)) != x)
  }

  // ---------------------------------------------------------------------------------------
  // Reading

  /** The key that a member's name stands for, if it is accepted. */
  function KeyOf(p: Platform, name: string): Option<uint32> {
    var r := Strtol(p, name);
    var key := Wrap32(r.number);
    if r.end == 0 then None
    else if r.outOfRange && (key == TWO_TO_THE_31 - 1 || key == -TWO_TO_THE_31) then None
    else if r.end != |name| then None
    else Some(Unsigned(key))
  }

  predicate Accepted(p: Platform, e: Member) {
    e.key.Some? && e.number.Some? && KeyOf(p, e.key.value).Some?
  }

  /** cJSON keeps numbers as integers by saturation. */
  function ValueInt(number: int): int32 { Saturate(number, TWO_TO_THE_31 - 1) }

  lemma NumbersSaturate(number: int)
    ensures ValueInt(number) ==
            if number > 0x7FFF_FFFF then 0x7FFF_FFFF else if number < -0x8000_0000 then -0x8000_0000 else number
  {
  }

  /** White space is what isspace says: blank, tab, line feed, vertical tab, form feed, carriage return. */
  lemma SpaceCharacters(c: char)
    ensures IsSpace(c) <==> c as int in {32, 9, 10, 11, 12, 13}
  {
  }

  function Read(p: Platform, m: SwitchMap, es: seq<Member>): SwitchMap {
    if es == [] then m
    else
      var before := Read(p, m, es[..|es| - 1]);
      var e := es[|es| - 1];
      if Accepted(p, e) then before[KeyOf(p, e.key.value).value := ValueInt(e.number.value)] else before
  }

  /** Read a saved map into `m`. */
  method ParseRecoverJson(p: Platform, m: SwitchMap, json: Json) returns (result: SwitchMap, ok: bool)
    ensures ok <==> json.Container?
    ensures result == if json.Container? then Read(p, m, json.members) else m
  {
    if !json.Container? {
      return m, false;
    }
    hide Strtol, Saturate, Wrap32;
    result := m;
    for i := 0 to |json.members|
      invariant result == Read(p, m, json.members[..i])
    {
      assert json.members[..i + 1][..i] == json.members[..i];
      var item := json.members[i];
      if item.key.None? || item.number.None? {
        continue;
      }
      var r := Strtol(p, item.key.value);
      var key := Wrap32(r.number);
      if r.end == 0 {
        continue;
      }
      if r.outOfRange && (key == TWO_TO_THE_31 - 1 || key == -TWO_TO_THE_31) {
        continue;
      }
      if r.end != |item.key.value| {
        continue;
      }
      result := result[Unsigned(key) := ValueInt(item.number.value)];
    }
    assert json.members[..|json.members|] == json.members;
    ok := true;
  }

  // ---------------------------------------------------------------------------------------
  // Writing

  function Written(k: uint32, v: int32): Member { Member(Some(ToString(k)), Some(v)) }

  ghost predicate Least(k: uint32, keys: set<uint32>) { k in keys && forall j :: j in keys ==> k <= j }

  lemma LeastKey(keys: set<uint32>)
    requires keys != {}
    ensures exists k :: Least(k, keys)
  {
    var k :| k in keys;
    var others := keys - {k};
    assert forall j :: j in keys ==> j == k || j in others;
    if others == {} {
      assert Least(k, keys);
    } else {
      LeastKey(others);
      var l :| Least(l, others);
      assert Least(if k < l then k else l, keys);
    }
  }

  lemma OneLeastKey(keys: set<uint32>, k: uint32, l: uint32)
    requires Least(k, keys) && Least(l, keys)
    ensures k == l
  {
  }

  /** The members that are written, by ascending keys. */
  ghost function Render(m: SwitchMap): seq<Member>
    decreases m.Keys
  {
    if m == map[] then [] else
      LeastKey(m.Keys);
      var k :| Least(k, m.Keys);
      [Written(k, m[k])] + Render(m - {k})
  }

  method SavePowerModeRecoverMap(m: SwitchMap) returns (json: Json)
    ensures json == Container(Render(m))
  {
    hide ToString, Written;
    var es: seq<Member> := [];
    var rest := m;
    while rest != map[]
      invariant es + Render(rest) == Render(m)
      invariant rest.Keys <= m.Keys && forall k :: k in rest ==> rest[k] == m[k]
      decreases rest.Keys
    {
      LeastKey(rest.Keys);
      var k: uint32 :| k in rest.Keys && forall j :: j in rest.Keys ==> k <= j;
      RenderFirst(rest, k);
      es := es + [Written(k, rest[k])];
      rest := rest - {k};
    }
    json := Container(es);
  }

  lemma RenderFirst(m: SwitchMap, k: uint32)
    requires Least(k, m.Keys)
    ensures Render(m) == [Written(k, m[k])] + Render(m - {k})
  {
    forall l | Least(l, m.Keys) ensures l == k { OneLeastKey(m.Keys, k, l); }
  }

  // ---------------------------------------------------------------------------------------
  // Laws

  /** White space, an optional sign, and digits: what a key must look like. */
  ghost predicate Numeral(name: string, space: string, sign: string, digits: string) {
    && name == space + sign + digits
    && AllSpace(space) && (sign == "" || sign == "+" || sign == "-") && digits != [] && AllDigits(digits)
  }

  lemma {:induction false} SpaceLenIs(space: string, rest: string)
    requires AllSpace(space) && (rest != [] ==> !IsSpace(rest[0]))
    ensures SpaceLen(space + rest) == |space|
    decreases |space|
  {
    if space == [] {
      assert space + rest == rest;
    } else {
      assert (space + rest)[1..] == space[1..] + rest;
      SpaceLenIs(space[1..], rest);
    }
  }

  lemma {:induction false} DigitLenIs(digits: string)
    requires AllDigits(digits)
    ensures DigitLen(digits) == |digits|
    decreases |digits|
  {
    if digits != [] {
      DigitLenIs(digits[1..]);
    }
  }

  lemma NumeralParts(name: string, space: string, sign: string, digits: string)
    requires Numeral(name, space, sign, digits)
    ensures SpaceLen(name) == |space| && name[|space|..] == sign + digits
    ensures SignLen(sign + digits) == |sign| && (|sign| > 0 ==> name[|space|] == sign[0])
    ensures name[|space| + |sign|..] == digits && DigitLen(digits) == |digits| > 0
  {
    hide SpaceLen, DigitLen, SignLen, AllSpace, AllDigits, IsSpace;
    SignedDigits(sign, digits);
    SpaceLenIs(space, sign + digits);
    DigitLenIs(digits);
    Regroup(space, sign, digits);
  }

  lemma Regroup(space: string, sign: string, digits: string)
    ensures var name := space + sign + digits;
      && name == space + (sign + digits) && name[|space|..] == sign + digits && name[|space| + |sign|..] == digits
      && (|sign| > 0 ==> name[|space|] == sign[0])
  {
  }

  lemma SignedDigits(sign: string, digits: string)
    requires (sign == "" || sign == "+" || sign == "-") && digits != [] && AllDigits(digits)
    ensures !IsSpace((sign + digits)[0]) && SignLen(sign + digits) == |sign|
  {
    assert digits[0] in digits;
    assert (sign + digits)[0] == if sign == "" then digits[0] else sign[0];
  }

  /** What strtol makes of a numeral: all of it, and the number it denotes if that fits. */
  lemma StrtolOfNumeral(p: Platform, name: string, space: string, sign: string, digits: string)
    requires Numeral(name, space, sign, digits)
    ensures var x := Signed(sign == "-", Value(digits));
      Strtol(p, name) == Converted(Saturate(x, LongMax(p)), |name|, Saturate(x, LongMax(p)) != x)
  {
    hide SpaceLen, DigitLen, SignLen, Value, Saturate;
    NumeralParts(name, space, sign, digits);
    assert digits[..|digits|] == digits;
  }

  /** A text that strtol consumes as a whole is a numeral. */
  lemma ConsumedIsNumeral(p: Platform, name: string)
    requires Strtol(p, name).end == |name| != 0
    ensures exists space, sign, digits :: Numeral(name, space, sign, digits)
  {
    var a := SpaceLen(name);
    var b := a + SignLen(name[a..]);
    var space, sign, digits := name[..a], name[a..b], name[b..];
    assert digits[..|digits|] == digits;
    assert sign == "" || sign == [name[a]];
    assert Numeral(name, space, sign, digits);
  }

  lemma WrapSmall(x: int)
    ensures -TWO_TO_THE_31 <= x < TWO_TO_THE_31 ==> Wrap32(x) == x
    ensures Wrap32(LongMax(LP64)) == -1 && Wrap32(-LongMax(LP64) - 1) == 0
  {
  }

  /** Which key a numeral stands for. Where `long` is wider than the key, a huge number wraps. */
  lemma KeyOfNumeral(p: Platform, name: string, space: string, sign: string, digits: string)
    requires Numeral(name, space, sign, digits)
    ensures var x := Signed(sign == "-", Value(digits));
      KeyOf(p, name) ==
      if p.ILP32? && Saturate(x, LongMax(p)) != x then None
      else Some(Unsigned(Wrap32(Saturate(x, LongMax(p)))))
  {
    hide Strtol, Value, Wrap32, Unsigned, AllSpace, AllDigits;
    StrtolOfNumeral(p, name, space, sign, digits);
    var x := Signed(sign == "-", Value(digits));
    WrapSmall(Saturate(x, LongMax(p)));
  }

  /** A key is accepted iff it is a numeral and, where `long` has 32 bits, its number fits. */
  lemma AcceptedKeys(p: Platform, name: string)
    ensures KeyOf(p, name).Some? <==>
            exists space, sign, digits :: Numeral(name, space, sign, digits) &&
              (p.LP64? || -TWO_TO_THE_31 <= Signed(sign == "-", Value(digits)) < TWO_TO_THE_31)
  {
    if KeyOf(p, name).Some? {
      assert Strtol(p, name).end == |name| != 0;
      hide KeyOf, Strtol, Value;
      ConsumedIsNumeral(p, name);
      var space, sign, digits :| Numeral(name, space, sign, digits);
      KeyOfNumeral(p, name, space, sign, digits);
    } else {
      hide KeyOf, Strtol, Value;
      forall space, sign, digits | Numeral(name, space, sign, digits)
        ensures p.ILP32? && !(-TWO_TO_THE_31 <= Signed(sign == "-", Value(digits)) < TWO_TO_THE_31)
      {
        KeyOfNumeral(p, name, space, sign, digits);
      }
    }
  }

  predicate Survives(p: Platform, k: uint32) { p.LP64? || k < TWO_TO_THE_31 }

  /** A key that was written is read back, unless `long` has 32 bits and the key needs all of them. */
  lemma KeyRoundTrip(p: Platform, k: uint32)
    ensures KeyOf(p, ToString(k)) == if Survives(p, k) then Some(k) else None
  {
    ToStringValue(k);
    assert Numeral(ToString(k), "", "", ToString(k));
    hide ToString, Value, KeyOf, Numeral;
    KeyOfNumeral(p, ToString(k), "", "", ToString(k));
    WrapIsInverse(k);
  }

  /** The part of the map whose keys survive. */
  function Surviving(p: Platform, m: SwitchMap): SwitchMap { map k | k in m && Survives(p, k) :: m[k] }

  lemma ReadStep(p: Platform, m: SwitchMap, es: seq<Member>, e: Member)
    ensures Read(p, m, es + [e]) ==
            if Accepted(p, e) then Read(p, m, es)[KeyOf(p, e.key.value).value := ValueInt(e.number.value)]
            else Read(p, m, es)
  {
    hide Accepted, KeyOf, ValueInt;
    assert (es + [e])[..|es|] == es;
  }

  lemma ReadWritten(p: Platform, m: SwitchMap, es: seq<Member>, k: uint32, v: int32)
    ensures Read(p, m, es + [Written(k, v)]) == if Survives(p, k) then Read(p, m, es)[k := v] else Read(p, m, es)
  {
    hide KeyOf, ToString, Read;
    KeyRoundTrip(p, k);
    ReadStep(p, m, es, Written(k, v));
  }

  /** Reading what was written of `rest` adds it to what was read before. */
  lemma {:induction false} ReadRendered(p: Platform, m: SwitchMap, es: seq<Member>, rest: SwitchMap)
    ensures Read(p, m, es + Render(rest)) == Read(p, m, es) + Surviving(p, rest)
    decreases rest.Keys
  {
    hide Read, Written, Render, Survives;
    if rest == map[] {
      assert Render(rest) == [] by { RenderNothing(rest); }
      assert es + [] == es;
    } else {
      LeastKey(rest.Keys);
      var k :| Least(k, rest.Keys);
      RenderFirst(rest, k);
      var e := Written(k, rest[k]);
      assert es + ([e] + Render(rest - {k})) == (es + [e]) + Render(rest - {k});
      ReadRendered(p, m, es + [e], rest - {k});
      ReadWritten(p, m, es, k, rest[k]);
      SurvivingFirst(p, Read(p, m, es), rest, k);
    }
  }

  lemma RenderNothing(m: SwitchMap)
    requires m == map[]
    ensures Render(m) == []
  {
  }

  lemma SurvivingFirst(p: Platform, m: SwitchMap, rest: SwitchMap, k: uint32)
    requires k in rest
    ensures (if Survives(p, k) then m[k := rest[k]] else m) + Surviving(p, rest - {k}) == m + Surviving(p, rest)
  {
  }

  /**
   * What is saved and read back into an empty map is the map without the keys that do not
   * survive: the whole map iff `long` has 64 bits or all keys are below 2^31.
   */
  lemma RecoverMapRoundTrip(p: Platform, m: SwitchMap)
    ensures Read(p, map[], Render(m)) == map k | k in m && Survives(p, k) :: m[k]
    ensures Read(p, map[], Render(m)) == m <==> p.LP64? || forall k :: k in m ==> k < TWO_TO_THE_31
  {
    hide Read, Render;
    ReadRendered(p, map[], [], m);
    assert [] + Render(m) == Render(m);
    assert Read(p, map[], []) == map[] by { ReadNothing(p); }
    assert Surviving(p, m) == m ==> forall k :: k in m ==> k in Surviving(p, m);
  }

  lemma ReadNothing(p: Platform)
    ensures Read(p, map[], []) == map[]
  {
  }

  /** The members that are not skipped. */
  function Kept(p: Platform, es: seq<Member>): seq<Member> {
    if es == [] then []
    else Kept(p, es[..|es| - 1]) + if Accepted(p, es[|es| - 1]) then [es[|es| - 1]] else []
  }

  /** Members that are not numbers under a key that is a numeral are skipped and disturb no others. */
  lemma {:induction false} SkippedMembersDoNotMatter(p: Platform, m: SwitchMap, es: seq<Member>)
    ensures Read(p, m, Kept(p, es)) == Read(p, m, es)
    decreases |es|
  {
    hide Read, Accepted;
    if es != [] {
      var init, e := es[..|es| - 1], es[|es| - 1];
      SkippedMembersDoNotMatter(p, m, init);
      assert es == init + [e];
      ReadStep(p, m, init, e);
      if Accepted(p, e) {
        ReadStep(p, m, Kept(p, init), e);
      } else {
        assert Kept(p, es) == Kept(p, init);
      }
    }
  }

  lemma {:induction false} KeptAreAccepted(p: Platform, es: seq<Member>, e: Member)
    ensures e in Kept(p, es) <==> e in es && Accepted(p, e)
    decreases |es|
  {
    hide Accepted;
    if es != [] {
      KeptAreAccepted(p, es[..|es| - 1], e);
      assert es == es[..|es| - 1] + [es[|es| - 1]];
    }
  }
}
