/** The date walkers of methods/Date.ts. `fromString` replaces, in place,
    every string value of a JSON-like object tree that has the shape of an
    ISO-8601 timestamp with a date object; `toString` replaces every date
    object with its ISO string. The date type is a type parameter `D`, and
    Luxon's `DateTime.fromISO` and `toISO` are function parameters
    (`toISO` gives `None` where Luxon gives `null`, for an invalid date). */
module IsoDate {
  import opened Common

  // ---------------------------------------------------------------------
  // The pattern /^\d{4}-\d{2}-\d{2}T\d{2}:\d{2}:\d{2}.\d{3}Z$/

  /** One position of an anchored pattern without alternatives: `\d`, a
      literal character, or an unescaped `.`. */
  datatype CharClass = Digit | Literal(c: char) | AnyButLineTerminator

  predicate IsDigit(c: char) {
    '0' <= c <= '9'
  }

  /** The characters `.` does not match in a JavaScript regular expression
      without the `s` flag. */
  predicate IsLineTerminator(c: char) {
    c == '\n' || c == '\r' || c == '\U{2028}' || c == '\U{2029}'
  }

  /** A character outside the Basic Multilingual Plane. The pattern has
      no `u` flag, so it reads UTF-16 code units, and such a character is
      two of them: `.` takes only the first, and the position after it
      then meets the second. */
  predicate IsSupplementary(c: char) {
    c >= '\U{10000}'
  }

  /** What one position accepts. A supplementary character never matches.
      Only `.` takes a lone surrogate, and `.` is followed by `\d`, which
      then fails on the second half. */
  predicate ClassHas(cc: CharClass, c: char) {
    match cc
    case Digit => IsDigit(c)
    case Literal(l) => c == l
    case AnyButLineTerminator => !IsLineTerminator(c) && !IsSupplementary(c)
  }

  /** The regular expression, position by position. `\d{4}` is four
      `Digit`s; `^` and `$` anchor the match to the whole string. */
  const ISO8601: seq<CharClass> := [
    Digit, Digit, Digit, Digit, Literal('-'), Digit, Digit, Literal('-'), Digit, Digit,
    Literal('T'), Digit, Digit, Literal(':'), Digit, Digit, Literal(':'), Digit, Digit,
    AnyButLineTerminator, Digit, Digit, Digit, Literal('Z')]

  /** `pattern.test(s)` for an anchored fixed-length pattern. */
  predicate FullMatch(pattern: seq<CharClass>, s: string) {
    if pattern == [] then s == []
    else s != [] && ClassHas(pattern[0], s[0]) && FullMatch(pattern[1..], s[1..])
  }

  lemma {:induction false} FullMatchPositionwise(pattern: seq<CharClass>, s: string)
    ensures FullMatch(pattern, s) <==>
      |s| == |pattern| && forall i :: 0 <= i < |s| ==> ClassHas(pattern[i], s[i])
  {
    if pattern != [] && s != [] {
      FullMatchPositionwise(pattern[1..], s[1..]);
      if |s| == |pattern| && forall i :: 0 <= i < |s| ==> ClassHas(pattern[i], s[i]) {
        forall i | 0 <= i < |s[1..]|
          ensures ClassHas(pattern[1..][i], s[1..][i])
        {
          assert pattern[1..][i] == pattern[i + 1] && s[1..][i] == s[i + 1];
        }
      }
      if FullMatch(pattern, s) {
        forall i | 0 <= i < |s|
          ensures ClassHas(pattern[i], s[i])
        {
          if i > 0 {
            assert pattern[1..][i - 1] == pattern[i] && s[1..][i - 1] == s[i];
          }
        }
      }
    }
  }

  predicate MatchesIso8601(s: string) {
    FullMatch(ISO8601, s)
  }

  /** The strings the pattern accepts, stated position by position: 24
      characters with digits at 0-3, 5-6, 8-9, 11-12, 14-15, 17-18 and
      20-22, `-` at 4 and 7, `T` at 10, `:` at 13 and 16, `Z` at 23, and at
      19 any character but a line terminator or a character outside the
      Basic Multilingual Plane. */
  predicate IsoShaped(s: string) {
    && |s| == 24
    && IsDigit(s[0]) && IsDigit(s[1]) && IsDigit(s[2]) && IsDigit(s[3])
    && s[4] == '-' && IsDigit(s[5]) && IsDigit(s[6])
    && s[7] == '-' && IsDigit(s[8]) && IsDigit(s[9])
    && s[10] == 'T' && IsDigit(s[11]) && IsDigit(s[12])
    && s[13] == ':' && IsDigit(s[14]) && IsDigit(s[15])
    && s[16] == ':' && IsDigit(s[17]) && IsDigit(s[18])
    && !IsLineTerminator(s[19]) && !IsSupplementary(s[19])
    && IsDigit(s[20]) && IsDigit(s[21]) && IsDigit(s[22])
    && s[23] == 'Z'
  }

  /** The pattern accepts exactly the strings of that shape. */
  lemma Iso8601Shape(s: string)
    ensures MatchesIso8601(s) <==> IsoShaped(s)
  {
    FullMatchPositionwise(ISO8601, s);
    if MatchesIso8601(s) {
      MatchIsShaped(s);
    }
    if IsoShaped(s) {
      ShapedMatches(s);
    }
  }

  lemma MatchIsShaped(s: string)
    requires |s| == |ISO8601| && forall i :: 0 <= i < |s| ==> ClassHas(ISO8601[i], s[i])
    ensures IsoShaped(s)
  {
  }

  lemma ShapedMatches(s: string)
    requires IsoShaped(s)
    ensures |s| == |ISO8601| && forall i :: 0 <= i < |s| ==> ClassHas(ISO8601[i], s[i])
  {
  }

  /** A timestamp with an emoji for the fraction's dot does not match:
      the emoji is two UTF-16 code units, one more than the pattern has
      room for. */
  lemma SupplementaryDotDoesNotMatch()
    ensures !MatchesIso8601("2024-01-01T00:00:00" + ['\U{1F600}'] + "000Z")
  {
    Iso8601Shape("2024-01-01T00:00:00" + ['\U{1F600}'] + "000Z");
  }

  // ---------------------------------------------------------------------
  // The specification: a tree map that keeps structure and keys

  /** A JSON-like value. Arrays are objects whose keys are their indices,
      as `for...in` sees them. */
  datatype Json<D> =
    | Undefined
    | Null
    | Boolean(b: bool)
    | Number(n: int)
    | Text(s: string)
    | Date(d: D)
    | Object(props: map<string, Json<D>>)

  /** What `fromString` makes of one property value. */
  function FromStringValue<D>(v: Json<D>, fromISO: string -> D): (r: Json<D>)
    ensures v.Text? && MatchesIso8601(v.s) ==> r == Date(fromISO(v.s))
    ensures v.Text? && !MatchesIso8601(v.s) ==> r == v
    ensures !v.Text? && !v.Object? ==> r == v
    ensures v.Object? ==> r.Object? && r.props.Keys == v.props.Keys
  {
    match v
    case Text(s) => if MatchesIso8601(s) then Date(fromISO(s)) else v
    case Object(props) => Object(map k | k in props :: FromStringValue(props[k], fromISO))
    case _ => v
  }

  /** What `toString` makes of one property value. */
  function ToStringValue<D>(v: Json<D>, toISO: D -> Option<string>): (r: Json<D>)
    ensures v.Date? ==> r == (match toISO(v.d) case Some(s) => Text(s) case None => Json.Null)
    ensures !v.Date? && !v.Object? ==> r == v
    ensures v.Object? ==> r.Object? && r.props.Keys == v.props.Keys
  {
    match v
    case Date(d) => (match toISO(d) case Some(s) => Text(s) case None => Json.Null)
    case Object(props) => Object(map k | k in props :: ToStringValue(props[k], toISO))
    case _ => v
  }

  /** Same objects with the same keys at the same places; only leaves may
      differ. */
  ghost predicate SameShape<D>(a: Json<D>, b: Json<D>) {
    match a
    case Object(pa) =>
      b.Object? && pa.Keys == b.props.Keys &&
      forall k :: k in pa ==> SameShape(pa[k], b.props[k])
    case _ => !b.Object?
  }

  lemma {:induction false} FromStringKeepsShape<D>(v: Json<D>, fromISO: string -> D)
    ensures SameShape(v, FromStringValue(v, fromISO))
  {
    match v
    case Object(props) =>
      var r := FromStringValue(v, fromISO);
      forall k | k in props
        ensures SameShape(props[k], r.props[k])
      {
        if props[k].Text? && MatchesIso8601(props[k].s) {
          assert r.props[k].Date?;
        } else {
          FromStringKeepsShape(props[k], fromISO);
        }
      }
    case _ =>
  }

  lemma {:induction false} ToStringKeepsShape<D>(v: Json<D>, toISO: D -> Option<string>)
    ensures SameShape(v, ToStringValue(v, toISO))
  {
    match v
    case Object(props) =>
      var r := ToStringValue(v, toISO);
      forall k | k in props
        ensures SameShape(props[k], r.props[k])
      {
        ToStringKeepsShape(props[k], toISO);
      }
    case _ =>
  }

  ghost predicate NoIsoStrings<D>(v: Json<D>) {
    match v
    case Text(s) => !MatchesIso8601(s)
    case Object(props) => forall k :: k in props ==> NoIsoStrings(props[k])
    case _ => true
  }

  ghost predicate NoDates<D>(v: Json<D>) {
    match v
    case Date(_) => false
    case Object(props) => forall k :: k in props ==> NoDates(props[k])
    case _ => true
  }

  /** After `fromString` no string in the tree has the timestamp shape,
      and a second `fromString` changes nothing. */
  lemma {:induction false} FromStringConvertsAll<D>(v: Json<D>, fromISO: string -> D)
    ensures NoIsoStrings(FromStringValue(v, fromISO))
    ensures FromStringValue(FromStringValue(v, fromISO), fromISO) == FromStringValue(v, fromISO)
  {
    match v
    case Object(props) =>
      var r := FromStringValue(v, fromISO);
      forall k | k in props
        ensures NoIsoStrings(r.props[k])
        ensures FromStringValue(r.props[k], fromISO) == r.props[k]
      {
        FromStringConvertsAll(props[k], fromISO);
      }
      assert FromStringValue(r, fromISO).props == r.props;
    case _ =>
  }

  /** After `toString` no date is left in the tree, and a second
      `toString` changes nothing. */
  lemma {:induction false} ToStringConvertsAll<D>(v: Json<D>, toISO: D -> Option<string>)
    ensures NoDates(ToStringValue(v, toISO))
    ensures ToStringValue(ToStringValue(v, toISO), toISO) == ToStringValue(v, toISO)
  {
    match v
    case Object(props) =>
      var r := ToStringValue(v, toISO);
      forall k | k in props
        ensures NoDates(r.props[k])
        ensures ToStringValue(r.props[k], toISO) == r.props[k]
      {
        ToStringConvertsAll(props[k], toISO);
      }
      assert ToStringValue(r, toISO).props == r.props;
    case _ =>
  }
}

module IsoDateHeap {
  import opened Common
  import opened IsoDate

  /** A property value as the walkers see it in memory: a primitive, a
      date, or a reference to a nested object. */
  datatype Value<D> =
    | Undefined
    | Null
    | Boolean(b: bool)
    | Number(n: int)
    | Text(s: string)
    | Date(d: D)
    | Ref(obj: JsObject<D>)

  /** A mutable JavaScript object. `repr` is the object and everything
      reachable from it; nested objects form a tree (no object is
      reachable along two paths, and none from itself). */
  class JsObject<D> {
    var props: map<string, Value<D>>
    ghost var repr: set<object>

    ghost predicate Valid()
      reads this, repr
      decreases repr, 1
    {
      && this in repr
      && (forall k :: k in props && props[k].Ref? ==> ChildValid(k))
      && (forall k, k' :: k in props && k' in props && k != k' && props[k].Ref? && props[k'].Ref? ==>
            props[k].obj.repr !! props[k'].obj.repr)
    }

    ghost predicate ChildValid(k: string)
      reads this, repr
      requires this in repr && k in props && props[k].Ref?
      decreases repr, 0
    {
      var child := props[k].obj;
      child in repr && child.repr <= repr && this !in child.repr && child.Valid()
    }

    /** The tree this object stands for. */
    ghost function Abs(): Json<D>
      reads this, repr
      requires Valid()
      decreases repr, 3
    {
      Json.Object(map k | k in props :: ValueAbs(k))
    }

    /** The tree the value under `k` stands for. */
    ghost function ValueAbs(k: string): Json<D>
      reads this, repr
      requires Valid() && k in props
      decreases repr, 2
    {
      match props[k]
      case Ref(child) => assert ChildValid(k); child.Abs()
      case _ => LeafAbs(props[k])
    }

    constructor ()
      ensures Valid() && props == map[] && repr == {this}
    {
      props := map[];
      repr := {this};
    }
  }

  /** The tree a primitive value stands for. */
  function LeafAbs<D>(v: Value<D>): Json<D>
    requires !v.Ref?
  {
    match v
    case Undefined => Json.Undefined
    case Null => Json.Null
    case Boolean(b) => Json.Boolean(b)
    case Number(n) => Json.Number(n)
    case Text(s) => Json.Text(s)
    case Date(d) => Json.Date(d)
  }

  /** `obj[k] = v`, a primitive written over a primitive: only that
      property's tree changes. */
  method SetLeaf<D>(obj: JsObject<D>, k: string, v: Value<D>)
    requires obj.Valid() && k in obj.props && !obj.props[k].Ref? && !v.Ref?
    modifies obj
    ensures obj.Valid() && obj.repr == old(obj.repr)
    ensures obj.Abs().props == old(obj.Abs().props)[k := LeafAbs(v)]
  {
    obj.props := obj.props[k := v];
    forall k' | k' in obj.props && k' != k && obj.props[k'].Ref?
      ensures obj.ChildValid(k')
      ensures obj.props[k'].obj.Abs() == old(obj.props[k'].obj.Abs())
    {
      assert old(obj.ChildValid(k'));
    }
  }

  /** `fromString`: rewrites `obj` in place and returns it. */
  method FromString<D>(obj: JsObject<D>, fromISO: string -> D) returns (r: JsObject<D>)
    requires obj.Valid()
    modifies obj.repr
    ensures r == obj && obj.Valid() && obj.repr == old(obj.repr)
    ensures obj.Abs() == FromStringValue(old(obj.Abs()), fromISO)
    decreases obj.repr, 2
  {
    ghost var before := obj.Abs().props;
    var keys := obj.props.Keys;
    while keys != {}
      invariant obj.Valid() && obj.repr == old(obj.repr)
      invariant keys <= before.Keys
      invariant obj.Abs().props == FromStringPending(before, keys, fromISO)
      decreases keys
    {
      var k :| k in keys;
      FromStringPendingStep(before, keys, k, fromISO);
      keys := keys - {k};
      FromStringProperty(obj, k, fromISO);
    }
    r := obj;
  }

  /** The properties of `props` after the `for...in` loop of `fromString` has
      visited every key but those in `keys`. */
  ghost function FromStringPending<D>(props: map<string, Json<D>>, keys: set<string>, fromISO: string -> D): map<string, Json<D>> {
    map k | k in props :: if k in keys then props[k] else FromStringValue(props[k], fromISO)
  }

  lemma FromStringPendingStep<D>(props: map<string, Json<D>>, keys: set<string>, k: string, fromISO: string -> D)
    requires k in keys && keys <= props.Keys
    ensures FromStringPending(props, keys, fromISO)[k := FromStringValue(FromStringPending(props, keys, fromISO)[k], fromISO)]
         == FromStringPending(props, keys - {k}, fromISO)
  {
  }

  /** One round of `fromString`'s `for...in` loop: the property `k`. A
      matching string becomes a date; a nested object is walked. */
  method FromStringProperty<D>(obj: JsObject<D>, k: string, fromISO: string -> D)
    requires obj.Valid() && k in obj.props
    modifies obj.repr
    ensures obj.Valid() && obj.repr == old(obj.repr)
    ensures obj.Abs().props == old(obj.Abs().props)[k := FromStringValue(old(obj.Abs().props[k]), fromISO)]
    decreases obj.repr, 1
  {
    match obj.props[k]
    case Text(s) =>
      if MatchesIso8601(s) {
        SetLeaf(obj, k, Value.Date(fromISO(s)));
      }
    case Ref(_) =>
      FromStringChild(obj, k, fromISO);
    case _ =>
  }

  /** The recursive call of `fromString` on the object under `k`. */
  method FromStringChild<D>(obj: JsObject<D>, k: string, fromISO: string -> D)
    requires obj.Valid() && k in obj.props && obj.props[k].Ref?
    modifies obj.repr
    ensures obj.Valid() && obj.repr == old(obj.repr)
    ensures obj.Abs().props == old(obj.Abs().props)[k := FromStringValue(old(obj.Abs().props[k]), fromISO)]
    decreases obj.repr, 0
  {
    var child := obj.props[k].obj;
    assert obj.ChildValid(k);
    var _ := FromString(child, fromISO);
    assert obj !in old(child.repr);
    forall k' | k' in obj.props && k' != k && obj.props[k'].Ref?
      ensures obj.props[k'].obj.repr == old(obj.props[k'].obj.repr)
      ensures obj.ChildValid(k')
      ensures obj.props[k'].obj.Abs() == old(obj.props[k'].obj.Abs())
    {
      var other := obj.props[k'].obj;
      assert other == old(obj.props[k'].obj);
      assert old(obj.ChildValid(k'));
      assert old(other.Valid());
      assert other in old(other.repr) && old(other.repr) <= old(obj.repr);
      assert old(other.repr) !! old(child.repr);
      assert other in old(obj.repr) - old(child.repr);
    }
    assert obj.ChildValid(k);
  }

  /** `toString`: rewrites `obj` in place and returns it. */
  method ToString<D>(obj: JsObject<D>, toISO: D -> Option<string>) returns (r: JsObject<D>)
    requires obj.Valid()
    modifies obj.repr
    ensures r == obj && obj.Valid() && obj.repr == old(obj.repr)
    ensures obj.Abs() == ToStringValue(old(obj.Abs()), toISO)
    decreases obj.repr, 2
  {
    ghost var before := obj.Abs().props;
    var keys := obj.props.Keys;
    while keys != {}
      invariant obj.Valid() && obj.repr == old(obj.repr)
      invariant keys <= before.Keys
      invariant obj.Abs().props == ToStringPending(before, keys, toISO)
      decreases keys
    {
      var k :| k in keys;
      ToStringPendingStep(before, keys, k, toISO);
      keys := keys - {k};
      ToStringProperty(obj, k, toISO);
    }
    r := obj;
  }

  /** The properties of `props` after the `for...in` loop of `toString` has
      visited every key but those in `keys`. */
  ghost function ToStringPending<D>(props: map<string, Json<D>>, keys: set<string>, toISO: D -> Option<string>): map<string, Json<D>> {
    map k | k in props :: if k in keys then props[k] else ToStringValue(props[k], toISO)
  }

  lemma ToStringPendingStep<D>(props: map<string, Json<D>>, keys: set<string>, k: string, toISO: D -> Option<string>)
    requires k in keys && keys <= props.Keys
    ensures ToStringPending(props, keys, toISO)[k := ToStringValue(ToStringPending(props, keys, toISO)[k], toISO)]
         == ToStringPending(props, keys - {k}, toISO)
  {
  }

  /** One round of `toString`'s `for...in` loop: the property `k`. A date
      becomes its ISO text, or `null` when it cannot be formatted; a
      nested object is walked. */
  method ToStringProperty<D>(obj: JsObject<D>, k: string, toISO: D -> Option<string>)
    requires obj.Valid() && k in obj.props
    modifies obj.repr
    ensures obj.Valid() && obj.repr == old(obj.repr)
    ensures obj.Abs().props == old(obj.Abs().props)[k := ToStringValue(old(obj.Abs().props[k]), toISO)]
    decreases obj.repr, 1
  {
    match obj.props[k]
    case Date(d) =>
      var text := toISO(d);
      SetLeaf(obj, k, match text case Some(s) => Value.Text(s) case None => Value.Null);
    case Ref(_) =>
      ToStringChild(obj, k, toISO);
    case _ =>
  }

  /** The recursive call of `toString` on the object under `k`. */
  method ToStringChild<D>(obj: JsObject<D>, k: string, toISO: D -> Option<string>)
    requires obj.Valid() && k in obj.props && obj.props[k].Ref?
    modifies obj.repr
    ensures obj.Valid() && obj.repr == old(obj.repr)
    ensures obj.Abs().props == old(obj.Abs().props)[k := ToStringValue(old(obj.Abs().props[k]), toISO)]
    decreases obj.repr, 0
  {
    var child := obj.props[k].obj;
    assert obj.ChildValid(k);
    var _ := ToString(child, toISO);
    assert obj !in old(child.repr);
    forall k' | k' in obj.props && k' != k && obj.props[k'].Ref?
      ensures obj.props[k'].obj.repr == old(obj.props[k'].obj.repr)
      ensures obj.ChildValid(k')
      ensures obj.props[k'].obj.Abs() == old(obj.props[k'].obj.Abs())
    {
      var other := obj.props[k'].obj;
      assert other == old(obj.props[k'].obj);
      assert old(obj.ChildValid(k'));
      assert old(other.Valid());
      assert other in old(other.repr) && old(other.repr) <= old(obj.repr);
      assert old(other.repr) !! old(child.repr);
      assert other in old(obj.repr) - old(child.repr);
    }
    assert obj.ChildValid(k);
  }
}
