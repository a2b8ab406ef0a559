/** Masking of secrets in the payloads that the record log keeps. */
module Redaction {

  datatype Json =
    | Null
    | Bool(b: bool)
    | Number(n: int)
    | Str(s: string)
    | Arr(items: seq<Json>)
    | Obj(members: seq<Member>)     // in key order, each key once

  datatype Member = Member(key: string, value: Json)

  function Lower(s: string): (t: string)
    ensures |t| == |s|
  {
    seq(|s|, i requires 0 <= i < |s| => if 'A' <= s[i] <= 'Z' then s[i] - 'A' + 'a' else s[i])
  }

  const SENSITIVE: set<string> :=
    {"token", "apikey", "api_key", "session_token", "sessiontoken", "auth_code", "authcode", "authorization",
        "x-api-key"}

  predicate IsSensitiveKey(key: string) {
    Lower(key) in SENSITIVE
  }

  /** The same text but for the case of ASCII letters. */
  predicate SameUpToCase(a: string, b: string) {
    |a| == |b| && forall i | 0 <= i < |a| :: a[i] == b[i] || CaseOf(a[i], b[i]) || CaseOf(b[i], a[i])
  }

  predicate CaseOf(upper: char, lower: char) {
    'A' <= upper <= 'Z' && lower as int == upper as int + 32
  }

  /** A key is sensitive iff it is one of nine names, in any case. */
  lemma SensitiveIff(key: string)
    ensures IsSensitiveKey(key) <==>
              || SameUpToCase(key, "token") || SameUpToCase(key, "apikey") || SameUpToCase(key, "api_key")
              || SameUpToCase(key, "session_token") || SameUpToCase(key, "sessiontoken")
              || SameUpToCase(key, "auth_code") || SameUpToCase(key, "authcode")
              || SameUpToCase(key, "authorization") || SameUpToCase(key, "x-api-key")
  {
    hide SameUpToCase, Lower;
    forall name | name in SENSITIVE ensures SameUpToCase(key, name) <==> Lower(key) == name {
      NamesAreLower(name);
      LowerIs(key, name);
    }
  }

  lemma NamesAreLower(name: string)
    requires name in SENSITIVE
    ensures forall c <- name :: !('A' <= c <= 'Z')
  {
  }

  lemma LowerIs(key: string, name: string)
    requires forall c <- name :: !('A' <= c <= 'Z')
    ensures SameUpToCase(key, name) <==> Lower(key) == name
  {
    if SameUpToCase(key, name) {
      forall i | 0 <= i < |name| ensures Lower(key)[i] == name[i] {
        assert name[i] in name;
      }
    } else if |key| == |name| {
      var i :| 0 <= i < |key| && !(key[i] == name[i] || CaseOf(key[i], name[i]) || CaseOf(name[i], key[i]));
      assert Lower(key)[i] != name[i];
    }
  }

  /** Keys that differ only in the case of letters are equally sensitive. */
  lemma CaseDoesNotMatter(a: string, b: string)
    requires SameUpToCase(a, b)
    ensures IsSensitiveKey(a) <==> IsSensitiveKey(b)
  {
    assert Lower(a) == Lower(b);
  }

  function MaskValue(value: string): string {
    if value == "" then ""
    else if |value| <= 10 then "***"
    else value[..6] + "..." + value[|value| - 4..]
  }

  function RedactJson(j: Json): Json {
    match j
    case Obj(members) => Obj(seq(|members|, i requires 0 <= i < |members| => RedactMember(members[i])))
    case Arr(items) => Arr(seq(|items|, i requires 0 <= i < |items| => RedactJson(items[i])))
    case _ => j
  }

  function RedactMember(m: Member): Member {
    m.(value := if IsSensitiveKey(m.key) then Str(if m.value.Str? then MaskValue(m.value.s) else "***")
                else RedactJson(m.value))
  }

  // ----- what a redacted value looks like

  predicate IsMask(s: string) {
    s == "" || s == "***" || (|s| == 13 && s[6..9] == "...")
  }

  /** At any depth, the value of a sensitive key is a mask. */
  predicate AllMasked(j: Json) {
    match j
    case Obj(members) =>
      forall i | 0 <= i < |members| ::
        if IsSensitiveKey(members[i].key) then members[i].value.Str? && IsMask(members[i].value.s)
        else AllMasked(members[i].value)
    case Arr(items) => forall i | 0 <= i < |items| :: AllMasked(items[i])
    case _ => true
  }

  lemma MaskIsMask(s: string)
    ensures IsMask(MaskValue(s))
  {
  }

  /** Masks stay as they are, so masking twice is masking once. */
  lemma MaskOfMask(s: string)
    requires IsMask(s)
    ensures MaskValue(s) == s
  {
    if |s| == 13 {
      assert s == s[..6] + s[6..9] + s[9..];
    }
  }

  lemma {:induction false} RedactMasks(j: Json)
    ensures AllMasked(RedactJson(j))
  {
    hide IsSensitiveKey, MaskValue, IsMask;
    match j
    case Obj(members) =>
      forall i | 0 <= i < |members|
        ensures var m := RedactMember(members[i]);
                if IsSensitiveKey(m.key) then m.value.Str? && IsMask(m.value.s) else AllMasked(m.value)
      {
        MaskIsMask(if members[i].value.Str? then members[i].value.s else "");
        StarsAreMask();
        RedactMasks(members[i].value);
      }
    case Arr(items) =>
      forall i | 0 <= i < |items| ensures AllMasked(RedactJson(items[i])) {
        RedactMasks(items[i]);
      }
    case _ =>
  }

  lemma StarsAreMask()
    ensures IsMask("***")
  {
  }

  lemma {:induction false} MaskedStays(j: Json)
    requires AllMasked(j)
    ensures RedactJson(j) == j
  {
    hide IsSensitiveKey, MaskValue, IsMask;
    match j
    case Obj(members) =>
      forall i | 0 <= i < |members| ensures RedactMember(members[i]) == members[i] {
        if IsSensitiveKey(members[i].key) { MaskOfMask(members[i].value.s); } else { MaskedStays(members[i].value); }
      }
      assert RedactJson(j).members == members;
    case Arr(items) =>
      forall i | 0 <= i < |items| ensures RedactJson(items[i]) == items[i] {
        MaskedStays(items[i]);
      }
      assert RedactJson(j).items == items;
    case _ =>
  }

  /** A value is left alone iff all of its secrets are masked already. */
  lemma FixedIffMasked(j: Json)
    ensures RedactJson(j) == j <==> AllMasked(j)
  {
    RedactMasks(j);
    if AllMasked(j) { MaskedStays(j); }
  }

  lemma RedactTwice(j: Json)
    ensures RedactJson(RedactJson(j)) == RedactJson(j)
  {
    RedactMasks(j);
    MaskedStays(RedactJson(j));
  }

  // ----- what redaction keeps and what it tells

  /** Outside sensitive values: the same kinds, keys, array lengths and leaves. */
  predicate SameOutside(a: Json, b: Json) {
    match a
    case Obj(members) =>
      && b.Obj? && |b.members| == |members|
      && forall i | 0 <= i < |members| ::
           && b.members[i].key == members[i].key
           && (!IsSensitiveKey(members[i].key) ==> SameOutside(members[i].value, b.members[i].value))
    case Arr(items) => b.Arr? && |b.items| == |items| && forall i | 0 <= i < |items| ::
           SameOutside(items[i], b.items[i])
    case _ => b == a
  }

  lemma {:induction false} RedactKeepsTheRest(j: Json)
    ensures SameOutside(j, RedactJson(j))
  {
    hide IsSensitiveKey, MaskValue;
    match j
    case Obj(members) =>
      forall i | 0 <= i < |members| ensures !IsSensitiveKey(members[i].key) ==>
          SameOutside(members[i].value, RedactJson(members[i].value)) {
        RedactKeepsTheRest(members[i].value);
      }
    case Arr(items) =>
      forall i | 0 <= i < |items| ensures SameOutside(items[i], RedactJson(items[i])) {
        RedactKeepsTheRest(items[i]);
      }
    case _ =>
  }

  /** All that a mask tells about a secret: that it is empty, that it is short or no string, or
      its first six and last four characters. */
  datatype Glimpse = Empty | Short | Ends(first: string, last: string)

  function GlimpseOf(j: Json): Glimpse {
    if !j.Str? then Short
    else if j.s == "" then Empty
    else if |j.s| <= 10 then Short
    else Ends(j.s[..6], j.s[|j.s| - 4..])
  }

  /** Two values that differ only in the parts of secrets that masks hide. */
  predicate Alike(a: Json, b: Json) {
    match a
    case Obj(members) =>
      && b.Obj? && |b.members| == |members|
      && forall i | 0 <= i < |members| ::
           && b.members[i].key == members[i].key
           && if IsSensitiveKey(members[i].key) then GlimpseOf(members[i].value) == GlimpseOf(b.members[i].value)
              else Alike(members[i].value, b.members[i].value)
    case Arr(items) => b.Arr? && |b.items| == |items| && forall i | 0 <= i < |items| :: Alike(items[i], b.items[i])
    case _ => b == a
  }

  function MaskedValue(j: Json): string {
    if j.Str? then MaskValue(j.s) else "***"
  }

  lemma MaskTells(a: Json, b: Json)
    ensures MaskedValue(a) == MaskedValue(b) <==> GlimpseOf(a) == GlimpseOf(b)
  {
    var x, y := MaskedValue(a), MaskedValue(b);
    if GlimpseOf(a).Ends? { assert x[..6] == GlimpseOf(a).first && x[9..] == GlimpseOf(a).last; }
    if GlimpseOf(b).Ends? { assert y[..6] == GlimpseOf(b).first && y[9..] == GlimpseOf(b).last; }
  }

  /** A redacted value tells exactly that much, at any depth: two values have the same redaction
      iff they differ only in what masks hide. */
  lemma {:induction false} RedactTells(a: Json, b: Json)
    ensures RedactJson(a) == RedactJson(b) <==> Alike(a, b)
  {
    hide IsSensitiveKey, MaskValue, GlimpseOf, MaskedValue, RedactMember;
    var x, y := RedactJson(a), RedactJson(b);
    match a
    case Obj(members) =>
      if b.Obj? && |b.members| == |members| {
        forall i | 0 <= i < |members|
          ensures RedactMember(members[i]) == RedactMember(b.members[i]) <==>
                    && b.members[i].key == members[i].key
                    && if IsSensitiveKey(members[i].key) then GlimpseOf(members[i].value)
                         == GlimpseOf(b.members[i].value)
                       else Alike(members[i].value, b.members[i].value)
        {
          MemberTells(members[i], b.members[i]);
          RedactTells(members[i].value, b.members[i].value);
        }
        assert forall i | 0 <= i < |members| ::
                 x.members[i] == RedactMember(members[i]) && y.members[i] == RedactMember(b.members[i]);
        assert x == y <==> x.members == y.members;
      }
    case Arr(items) =>
      if b.Arr? && |b.items| == |items| {
        forall i | 0 <= i < |items| ensures RedactJson(items[i]) == RedactJson(b.items[i]) <==>
            Alike(items[i], b.items[i]) {
          RedactTells(items[i], b.items[i]);
        }
        assert forall i | 0 <= i < |items| ::
                 x.items[i] == RedactJson(items[i]) && y.items[i] == RedactJson(b.items[i]);
        assert x == y <==> x.items == y.items;
      }
    case _ =>
  }

  lemma MemberTells(m: Member, n: Member)
    ensures RedactMember(m) == RedactMember(n) <==>
              && n.key == m.key
              && if IsSensitiveKey(m.key) then GlimpseOf(m.value) == GlimpseOf(n.value)
                   else RedactJson(m.value) == RedactJson(n.value)
  {
    hide IsSensitiveKey, MaskValue, GlimpseOf, RedactJson;
    MaskTells(m.value, n.value);
  }
}
