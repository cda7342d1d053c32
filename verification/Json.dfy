/** JSON values. An object is kept as its members in strictly increasing key order. */
module Json {
  import opened Wrappers
  import opened DecimalText

  /** `Flt` keeps the literal of a number with a fraction or an exponent. */
  datatype Json =
    | Null
    | Bool(b: bool)
    | Int(n: int)
    | Flt(literal: string)
    | Str(s: string)
    | Arr(items: Items)
    | Obj(members: Dict)

  datatype Items = NoItem | Item(head: Json, tail: Items)

  datatype Dict = NoMember | Member(key: string, value: Json, rest: Dict)

  /** Code-point order of strings, the order of `sort_keys`. */
  predicate Before(a: string, b: string) {
    b != "" && (a == "" || a[0] < b[0] || (a[0] == b[0] && Before(a[1..], b[1..])))
  }

  lemma BeforeTrichotomy(a: string, b: string)
    ensures Before(a, b) || a == b || Before(b, a)
    ensures !(Before(a, b) && Before(b, a)) && !Before(a, a)
  {
    if a != "" && b != "" {
      BeforeTrichotomy(a[1..], b[1..]);
      if a[0] == b[0] && a[1..] == b[1..] {
        assert a == [a[0]] + a[1..] == b;
      }
    }
    if a != "" { BeforeTrichotomy(a[1..], a[1..]); }
  }

  lemma BeforeTransitive(a: string, b: string, c: string)
    requires Before(a, b) && Before(b, c)
    ensures Before(a, c)
  {
    if a != "" && a[0] == b[0] && b[0] == c[0] {
      BeforeTransitive(a[1..], b[1..], c[1..]);
    }
  }

  function WholeEnd(s: string, a: nat): (b: nat)
    requires a < |s| && IsDigit(s[a])
    ensures a < b <= |s|
  {
    if s[a] == '0' then a + 1 else Span(s, a)
  }

  /** After a point with at least one digit behind it; `b` when there is none. */
  function FractionEnd(s: string, b: nat): (c: nat)
    requires b <= |s|
    ensures b <= c <= |s|
  {
    if b + 1 < |s| && s[b] == '.' && IsDigit(s[b + 1]) then Span(s, b + 1) else b
  }

  function ExponentEnd(s: string, c: nat): (e: nat)
    requires c <= |s|
    ensures c <= e <= |s|
  {
    if c < |s| && IsExpMark(s[c]) then
      var m := AfterSign(s, c + 1);
      if m < |s| && IsDigit(s[m]) then Span(s, m) else c
    else c
  }

  /** Where the number at the start of `s` has its whole part end and where it ends; None: no number there. */
  function NumberSpan(s: string): (r: Option<(nat, nat)>)
    ensures r.Some? ==> 0 < r.value.0 <= r.value.1 <= |s|
  {
    var a := if s != "" && s[0] == '-' then 1 else 0;
    if a == |s| || !IsDigit(s[a]) then None
    else
      var b := WholeEnd(s, a);
      Some((b, ExponentEnd(s, FractionEnd(s, b))))
  }

  /** A complete number with a fraction or an exponent. */
  predicate IsFloatLiteral(t: string) {
    NumberSpan(t).Some? && NumberSpan(t).value.0 < NumberSpan(t).value.1 == |t|
  }

  /** Every object inside has its members in strictly increasing key order, and literals are number texts. */
  predicate Canonical(j: Json) {
    match j
    case Flt(literal) => IsFloatLiteral(literal)
    case Arr(items) => CanonicalItems(items)
    case Obj(members) => CanonicalDict(members)
    case _ => true
  }

  predicate CanonicalItems(items: Items) {
    items.NoItem? || (Canonical(items.head) && CanonicalItems(items.tail))
  }

  predicate CanonicalDict(d: Dict) {
    d.NoMember? || (
      && Canonical(d.value) && CanonicalDict(d.rest)
      && (d.rest.Member? ==> Before(d.key, d.rest.key)))
  }

  /** Assignment to a dict key: a repeated key keeps its last value. */
  function Put(d: Dict, k: string, v: Json): Dict {
    match d
    case NoMember => Member(k, v, NoMember)
    case Member(key, value, rest) =>
      if k == key then Member(k, v, rest)
      else if Before(k, key) then Member(k, v, d)
      else Member(key, value, Put(rest, k, v))
  }

  lemma PutCanonical(d: Dict, k: string, v: Json)
    requires CanonicalDict(d) && Canonical(v)
    ensures CanonicalDict(Put(d, k, v))
    ensures Put(d, k, v).Member? && (Put(d, k, v).key == k || (d.Member? && Put(d, k, v).key == d.key))
  {
    hide IsFloatLiteral;
    if d.Member? {
      BeforeTrichotomy(k, d.key);
      PutCanonical(d.rest, k, v);
    }
  }

  /** Adding an earlier member in front of later ones: a repeated key keeps its later value. */
  function PutEarlier(d: Dict, k: string, v: Json): Dict {
    match d
    case NoMember => Member(k, v, NoMember)
    case Member(key, value, rest) =>
      if k == key then d
      else if Before(k, key) then Member(k, v, d)
      else Member(key, value, PutEarlier(rest, k, v))
  }

  lemma PutEarlierFront(d: Dict, k: string, v: Json)
    requires d.Member? ==> Before(k, d.key)
    ensures PutEarlier(d, k, v) == Member(k, v, d)
  {
    if d.Member? { BeforeTrichotomy(k, d.key); }
  }

  lemma PutEarlierCanonical(d: Dict, k: string, v: Json)
    requires CanonicalDict(d) && Canonical(v)
    ensures CanonicalDict(PutEarlier(d, k, v))
    ensures PutEarlier(d, k, v).Member? && (PutEarlier(d, k, v).key == k || (d.Member? && PutEarlier(d, k, v).key == d.key))
  {
    hide IsFloatLiteral;
    if d.Member? {
      BeforeTrichotomy(k, d.key);
      PutEarlierCanonical(d.rest, k, v);
    }
  }

  function Get(d: Dict, k: string): Option<Json> {
    match d
    case NoMember => None
    case Member(key, value, rest) => if key == k then Some(value) else Get(rest, k)
  }

  /** No key outside `allowed`. */
  predicate OnlyKeys(d: Dict, allowed: set<string>) {
    d.NoMember? || (d.key in allowed && OnlyKeys(d.rest, allowed))
  }

  lemma GetAfterPut(d: Dict, k: string, v: Json, k': string)
    ensures Get(Put(d, k, v), k') == if k' == k then Some(v) else Get(d, k')
    decreases d
  {
    if d.Member? {
      if k != d.key && !Before(k, d.key) { GetAfterPut(d.rest, k, v, k'); }
    }
  }
}
