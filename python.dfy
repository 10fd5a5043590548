/**
 * The part of Python's data model that the cache, permission and response
 * helpers rely on: None, truthiness, `str()` of primary keys, `'_'.join`,
 * the substring test `p in s`, string ordering and `sorted()` of keyword
 * arguments.
 */
module Python {

  datatype Option<+T> = None | Some(value: T)

  /** A Python value handed to the helpers. `PyObject` is any other object;
      Python treats it as true, and `text` is what `str()` gives for it.
      A `PyDict` does not record the insertion order of its keys. */
  datatype Value =
    | PyNone
    | PyBool(b: bool)
    | PyInt(i: int)
    | PyStr(s: string)
    | PyList(items: seq<Value>)
    | PyDict(entries: map<string, Value>)
    | PyObject(text: string)

  /** Python's truth test (`if v:`, `v or w`). */
  predicate Truthy(v: Value)
  {
    match v
    case PyNone => false
    case PyBool(b) => b
    case PyInt(i) => i != 0
    case PyStr(s) => |s| != 0
    case PyList(items) => |items| != 0
    case PyDict(entries) => |entries| != 0
    case PyObject(_) => true
  }

  /** A model instance's primary key: absent (None), an integer or a string. */
  datatype Pk = NoPk | IntPk(n: int) | StrPk(s: string)
  {
    predicate Truthy()
    {
      match this
      case NoPk => false
      case IntPk(n) => n != 0
      case StrPk(s) => |s| != 0
    }

    /** `str(pk)` */
    function ToStr(): string
    {
      match this
      case NoPk => "None"
      case IntPk(n) => IntToStr(n)
      case StrPk(s) => s
    }
  }

  // ---------------------------------------------------------------- str(int)

  predicate IsDecimalDigit(c: char)
  {
    '0' <= c <= '9'
  }

  function DigitChar(d: nat): (c: char)
    requires d < 10
    ensures IsDecimalDigit(c)
  {
    "0123456789"[d]
  }

  /** The decimal numeral of `n`, without leading zeros. */
  function NatToStr(n: nat): (r: string)
    ensures 0 < |r|
    ensures forall k | 0 <= k < |r| :: IsDecimalDigit(r[k])
    ensures 1 < |r| ==> r[0] != '0'
    decreases n
  {
    if n < 10 then [DigitChar(n)] else NatToStr(n / 10) + [DigitChar(n % 10)]
  }

  /** `str(i)` for an integer. */
  function IntToStr(i: int): (r: string)
    ensures 0 < |r|
    ensures r[0] == '-' <==> i < 0
  {
    if i < 0 then "-" + NatToStr(-i) else NatToStr(i)
  }

  // ------------------------------------------------------------- str.join

  /** `sep.join(parts)` */
  function Join(sep: string, parts: seq<string>): string
  {
    if |parts| == 0 then ""
    else if |parts| == 1 then parts[0]
    else parts[0] + sep + Join(sep, parts[1..])
  }

  // ------------------------------------------------------------ substring

  predicate OccursAt(p: string, s: string, i: nat)
  {
    i + |p| <= |s| && s[i..i + |p|] == p
  }

  /** Python's `p in s` for strings. */
  predicate Contains(s: string, p: string)
  {
    exists i: nat | i <= |s| :: OccursAt(p, s, i)
  }

  /** A string contains every prefix of every substring it contains. */
  lemma ContainsPrefix(s: string, p: string, q: string)
    requires Contains(s, p + q)
    ensures Contains(s, p)
  {
    var i: nat :| i <= |s| && OccursAt(p + q, s, i);
    assert s[i..i + |p|] == (p + q)[..|p|] == p;
    assert OccursAt(p, s, i);
  }

  // ------------------------------------------------------- string ordering

  /** Python's `a < b` on strings: lexicographic by code point. */
  predicate Less(a: string, b: string)
    decreases |a|
  {
    if |a| == 0 then 0 < |b|
    else if |b| == 0 then false
    else if a[0] == b[0] then Less(a[1..], b[1..])
    else a[0] < b[0]
  }

  lemma {:induction false} LessIrreflexive(a: string)
    ensures !Less(a, a)
    decreases |a|
  {
    if 0 < |a| {
      LessIrreflexive(a[1..]);
    }
  }

  lemma {:induction false} LessTransitive(a: string, b: string, c: string)
    requires Less(a, b) && Less(b, c)
    ensures Less(a, c)
    decreases |a|
  {
    if 0 < |a| && 0 < |b| && 0 < |c| && a[0] == b[0] && b[0] == c[0] {
      LessTransitive(a[1..], b[1..], c[1..]);
    }
  }

  lemma LessAsymmetric(a: string, b: string)
    ensures !(Less(a, b) && Less(b, a))
  {
    if Less(a, b) && Less(b, a) {
      LessTransitive(a, b, a);
      LessIrreflexive(a);
    }
  }

  lemma {:induction false} LessTotal(a: string, b: string)
    requires a != b
    ensures Less(a, b) || Less(b, a)
    decreases |a|
  {
    if 0 < |a| && 0 < |b| && a[0] == b[0] {
      assert a == [a[0]] + a[1..] && b == [b[0]] + b[1..];
      LessTotal(a[1..], b[1..]);
    }
  }

  // ------------------------------------------------ sorted(kwargs.items())

  /** One keyword argument: its name and its value. */
  type Item = (string, Value)

  /** Keyword arguments as Python delivers them: the names are distinct. */
  predicate DistinctNames(items: seq<Item>)
  {
    forall i, j | 0 <= i < j < |items| :: items[i].0 != items[j].0
  }

  /** A keyword argument with this name is among the items. */
  predicate NamesKeyword(items: seq<Item>, name: string)
  {
    exists k | 0 <= k < |items| :: items[k].0 == name
  }

  /** Python's `TypeError: got multiple values for argument`: a keyword
      argument named like a parameter that is already bound. */
  datatype CallError = MultipleValues(param: string)

  /** A call's result, or the `TypeError` it raises while binding arguments. */
  datatype Result<T> = Ok(value: T) | Err(error: CallError)

  predicate SortedByName(items: seq<Item>)
  {
    forall i, j | 0 <= i < j < |items| :: Less(items[i].0, items[j].0)
  }

  function Insert(x: Item, s: seq<Item>): (r: seq<Item>)
    requires SortedByName(s)
    requires forall k | 0 <= k < |s| :: s[k].0 != x.0
    ensures SortedByName(r)
    ensures multiset(r) == multiset(s) + multiset{x}
    ensures forall e :: e in r <==> e in s || e == x
  {
    if |s| == 0 then [x]
    else if Less(x.0, s[0].0) then
      assert forall k | 0 < k < |s| :: Less(x.0, s[k].0) by {
        forall k | 0 < k < |s| ensures Less(x.0, s[k].0) {
          LessTransitive(x.0, s[0].0, s[k].0);
        }
      }
      [x] + s
    else
      LessTotal(x.0, s[0].0);
      assert s == [s[0]] + s[1..];
      var rest := Insert(x, s[1..]);
      assert forall e | e in rest :: Less(s[0].0, e.0);
      [s[0]] + rest
  }

  /** `sorted(items)` for items with distinct names: tuples compare by their
      first component, so the values themselves are never compared. */
  function SortItems(items: seq<Item>): (r: seq<Item>)
    requires DistinctNames(items)
    ensures SortedByName(r)
    ensures multiset(r) == multiset(items)
  {
    if |items| == 0 then []
    else
      var rest := SortItems(items[1..]);
      assert forall k | 0 <= k < |rest| :: rest[k].0 != items[0].0 by {
        forall k | 0 <= k < |rest| ensures rest[k].0 != items[0].0 {
          assert rest[k] in multiset(items[1..]);
        }
      }
      assert items == [items[0]] + items[1..];
      Insert(items[0], rest)
  }

  /** The first item of a name-sorted sequence precedes every other item. */
  lemma SortedHeadIsLeast(s: seq<Item>, e: Item)
    requires SortedByName(s) && e in s
    ensures e == s[0] || Less(s[0].0, e.0)
  {
  }

  /** Two non-empty name-sorted sequences holding the same items start alike. */
  lemma SortedSameHead(s: seq<Item>, t: seq<Item>)
    requires SortedByName(s) && SortedByName(t)
    requires 0 < |s| && multiset(s) == multiset(t)
    ensures 0 < |t| && s[0] == t[0]
  {
    assert s[0] in multiset(t);
    assert t[0] in multiset(s);
    SortedHeadIsLeast(s, t[0]);
    SortedHeadIsLeast(t, s[0]);
    LessAsymmetric(s[0].0, t[0].0);
  }

  /** Removing equal heads from sequences with equal multisets leaves tails
      with equal multisets. */
  lemma TailsSameItems(s: seq<Item>, t: seq<Item>)
    requires 0 < |s| && 0 < |t| && s[0] == t[0]
    requires multiset(s) == multiset(t)
    ensures multiset(s[1..]) == multiset(t[1..])
  {
    assert s == [s[0]] + s[1..] && t == [t[0]] + t[1..];
    assert multiset(s) == multiset{s[0]} + multiset(s[1..]);
    assert multiset(t) == multiset{t[0]} + multiset(t[1..]);
    assert multiset(s[1..]) == multiset(s) - multiset{s[0]};
  }

  /** Two name-sorted sequences holding the same items are identical: the
      sorted order of a set of keyword arguments does not depend on the
      order in which they were passed. */
  lemma {:induction false} SortedUnique(s: seq<Item>, t: seq<Item>)
    requires SortedByName(s) && SortedByName(t)
    requires multiset(s) == multiset(t)
    ensures s == t
    decreases |s|
  {
    if |s| == 0 {
      assert |multiset(t)| == 0;
    } else {
      SortedSameHead(s, t);
      TailsSameItems(s, t);
      SortedUnique(s[1..], t[1..]);
      assert s == [s[0]] + s[1..] && t == [t[0]] + t[1..];
    }
  }
}
