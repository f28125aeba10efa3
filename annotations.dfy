/** The annotation grammar: `ssarg.io/<name>[_<qualifier>]` keys are collected
    into an index keyed by qualified names, and a qualifier decides which
    replica ordinals an annotation applies to. */
module Annotations {
  import opened Wrappers
  import opened Strings

  const PREFIX: string := "ssarg.io/"
  const SEPARATOR: char := '_'

  /** A mutation kind (`name`) with an optional ordinal-range expression (`qualifier`). */
  datatype QualifiedName = QualifiedName(qualifier: string, name: string)

  /** `order` lists the keys of `m`, and nothing else: one enumeration of a Go map. */
  ghost predicate Enumerates<K(!new), V>(order: seq<K>, m: map<K, V>) {
    forall k :: k in order <==> k in m
  }

  // ---------------------------------------------------------------------------
  // Qualified names

  /** The qualified name written by the text that follows the prefix: split on
      the last separator, or the whole text as the name when there is none. */
  function Qualify(n: string): (q: QualifiedName)
    ensures SEPARATOR !in q.qualifier
    ensures SEPARATOR !in n ==> q == QualifiedName("", n)
    ensures SEPARATOR in n ==> q.name + [SEPARATOR] + q.qualifier == n
  {
    var i := LastIndexOf(n, SEPARATOR);
    if i == -1 then QualifiedName("", n)
    else
      assert n == n[..i] + [SEPARATOR] + n[i + 1..];
      QualifiedName(n[i + 1..], n[..i])
  }

  /** Writing a name and a separator-free qualifier with one separator between
      them reads back as that pair; the name itself may contain separators. */
  lemma QualifyJoin(name: string, qualifier: string)
    requires SEPARATOR !in qualifier
    ensures Qualify(name + [SEPARATOR] + qualifier) == QualifiedName(qualifier, name)
  {
    var n := name + [SEPARATOR] + qualifier;
    var i := LastIndexOf(n, SEPARATOR);
    assert n[|name|] == SEPARATOR;
    assert forall j :: |name| < j < |n| ==> n[j] == qualifier[j - |name| - 1];
    assert i == |name|;
    assert n[..i] == name && n[i + 1..] == qualifier;
  }

  /** A trailing separator gives an empty qualifier, so `a_` and `a` collide. */
  lemma QualifyCollision()
    ensures Qualify("a_") == Qualify("a") == QualifiedName("", "a")
  {
    QualifyJoin("a", "");
    assert "a" + [SEPARATOR] + "" == "a_";
  }

  // ---------------------------------------------------------------------------
  // Collector

  predicate IsArgumentKey(k: string) {
    HasPrefix(k, PREFIX)
  }

  /** The qualified name an annotation key under the prefix stands for. */
  function KeyName(k: string): (q: QualifiedName)
    requires IsArgumentKey(k)
    ensures SEPARATOR !in q.qualifier
    ensures SEPARATOR in k[|PREFIX|..] ==> k == PREFIX + q.name + [SEPARATOR] + q.qualifier
    ensures SEPARATOR !in k[|PREFIX|..] ==> k == PREFIX + q.name && q.qualifier == ""
  {
    Qualify(TrimPrefix(k, PREFIX))
  }

  /** The index built by visiting the keys in `order`, each later write to the
      same qualified name replacing the earlier one. */
  function Collected(annotations: map<string, string>, order: seq<string>): (m: map<QualifiedName, string>)
    requires forall k :: k in order ==> k in annotations
    ensures forall q :: q in m ==> SEPARATOR !in q.qualifier
    ensures forall q :: q in m ==> m[q] in annotations.Values
    decreases |order|
  {
    if order == [] then map[]
    else
      var k := order[|order| - 1];
      var m := Collected(annotations, order[..|order| - 1]);
      if IsArgumentKey(k) then m[KeyName(k) := annotations[k]] else m
  }

  /** The default collector: keeps the keys under the prefix, strips it and
      splits the rest on its last separator. Never fails. */
  method Collect(annotations: map<string, string>, order: seq<string>) returns (m: map<QualifiedName, string>)
    requires Enumerates(order, annotations)
    ensures m == Collected(annotations, order)
  {
    m := map[];
    for i := 0 to |order|
      invariant m == Collected(annotations, order[..i])
    {
      var k := order[i];
      var v := annotations[k];
      if HasPrefix(k, PREFIX) {
        var n := TrimPrefix(k, PREFIX);
        var sep := LastIndexOf(n, SEPARATOR);
        if sep == -1 {
          m := m[QualifiedName("", n) := v];
        } else {
          m := m[QualifiedName(n[sep + 1..], n[..sep]) := v];
        }
      }
      assert order[..i + 1][..i] == order[..i];
    }
    assert order[..|order|] == order;
  }

  /** A qualified name is in the index exactly when some visited key under the
      prefix stands for it; every other key is skipped. */
  lemma {:induction false} CollectedKeys(annotations: map<string, string>, order: seq<string>, q: QualifiedName)
    requires forall k :: k in order ==> k in annotations
    ensures q in Collected(annotations, order) <==>
            exists k :: k in order && IsArgumentKey(k) && KeyName(k) == q
    decreases |order|
  {
    if order != [] {
      var init := order[..|order| - 1];
      assert order == init + [order[|order| - 1]];
      CollectedKeys(annotations, init, q);
    }
  }

  /** Each entry of the index holds the value of some visited key under the
      prefix that stands for its qualified name: on a collision, one of the
      colliding values. */
  lemma {:induction false} CollectedValue(annotations: map<string, string>, order: seq<string>, q: QualifiedName)
    requires forall k :: k in order ==> k in annotations
    requires q in Collected(annotations, order)
    ensures exists k :: k in order && IsArgumentKey(k) && KeyName(k) == q &&
                        annotations[k] == Collected(annotations, order)[q]
    decreases |order|
  {
    var last := order[|order| - 1];
    var init := order[..|order| - 1];
    assert order == init + [last];
    if !(IsArgumentKey(last) && KeyName(last) == q) {
      CollectedValue(annotations, init, q);
    }
  }

  /** When only one annotation key stands for a qualified name, the index holds
      that key's value, whatever the enumeration order. */
  lemma CollectedUnique(annotations: map<string, string>, order: seq<string>, k: string)
    requires Enumerates(order, annotations)
    requires k in annotations && IsArgumentKey(k)
    requires forall k' :: k' in annotations && IsArgumentKey(k') && KeyName(k') == KeyName(k) ==> k' == k
    ensures KeyName(k) in Collected(annotations, order)
    ensures Collected(annotations, order)[KeyName(k)] == annotations[k]
  {
    CollectedKeys(annotations, order, KeyName(k));
    CollectedValue(annotations, order, KeyName(k));
  }

  /** A key under the prefix stands for the qualified name of what follows the prefix. */
  lemma KeyNameOf(n: string)
    ensures IsArgumentKey(PREFIX + n) && KeyName(PREFIX + n) == Qualify(n)
  {
    assert (PREFIX + n)[..|PREFIX|] == PREFIX;
    assert (PREFIX + n)[|PREFIX|..] == n;
  }

  /** A key under the prefix whose remainder has no separator stands for that
      remainder, unqualified. */
  lemma KeyNameUnqualified(name: string)
    requires SEPARATOR !in name
    ensures IsArgumentKey(PREFIX + name) && KeyName(PREFIX + name) == QualifiedName("", name)
  {
    KeyNameOf(name);
  }

  /** A key `<prefix><name>_<qualifier>` stands for `name` qualified by `qualifier`. */
  lemma KeyNameQualified(name: string, qualifier: string)
    requires SEPARATOR !in qualifier
    ensures IsArgumentKey(PREFIX + name + [SEPARATOR] + qualifier)
    ensures KeyName(PREFIX + name + [SEPARATOR] + qualifier) == QualifiedName(qualifier, name)
  {
    assert PREFIX + name + [SEPARATOR] + qualifier == PREFIX + (name + [SEPARATOR] + qualifier);
    KeyNameOf(name + [SEPARATOR] + qualifier);
    QualifyJoin(name, qualifier);
  }

  /** The index holds no qualified name that no annotation key stands for. */
  lemma CollectedKeysWithin(annotations: map<string, string>, order: seq<string>, names: set<QualifiedName>)
    requires Enumerates(order, annotations)
    requires forall k :: k in annotations && IsArgumentKey(k) ==> KeyName(k) in names
    ensures Collected(annotations, order).Keys <= names
  {
    forall q | q in Collected(annotations, order) ensures q in names {
      CollectedKeys(annotations, order, q);
    }
  }

  /** Two annotation keys under the prefix that stand for different qualified
      names each give their own entry, whatever the enumeration order. */
  lemma CollectedTwo(annotations: map<string, string>, order: seq<string>,
                     k1: string, k2: string, q1: QualifiedName, q2: QualifiedName)
    requires k1 in annotations && k2 in annotations
    requires forall k :: k in annotations ==> k == k1 || k == k2
    requires IsArgumentKey(k1) && KeyName(k1) == q1
    requires IsArgumentKey(k2) && KeyName(k2) == q2
    requires q1 != q2
    requires Enumerates(order, annotations)
    ensures forall q :: q in Collected(annotations, order) <==> q == q1 || q == q2
    ensures Collected(annotations, order)[q1] == annotations[k1]
    ensures Collected(annotations, order)[q2] == annotations[k2]
  {
    CollectedKeysTwo(annotations, order, k1, k2, q1, q2);
    CollectedOne(annotations, order, k1, k2, q1, q2);
    CollectedOne(annotations, order, k2, k1, q2, q1);
  }

  /** With only two annotation keys, the index holds no other qualified names. */
  lemma CollectedKeysTwo(annotations: map<string, string>, order: seq<string>,
                         k1: string, k2: string, q1: QualifiedName, q2: QualifiedName)
    requires forall k :: k in annotations ==> k == k1 || k == k2
    requires IsArgumentKey(k1) && KeyName(k1) == q1
    requires IsArgumentKey(k2) && KeyName(k2) == q2
    requires Enumerates(order, annotations)
    ensures forall q :: q in Collected(annotations, order) ==> q == q1 || q == q2
  {
    forall q | q in Collected(annotations, order) ensures q == q1 || q == q2 {
      CollectedKeys(annotations, order, q);
    }
  }

  /** With only two keys standing for different names, each has its own entry. */
  lemma CollectedOne(annotations: map<string, string>, order: seq<string>,
                     k: string, other: string, q: QualifiedName, q': QualifiedName)
    requires k in annotations && forall k' :: k' in annotations ==> k' == k || k' == other
    requires IsArgumentKey(k) && KeyName(k) == q
    requires IsArgumentKey(other) && KeyName(other) == q'
    requires q != q'
    requires Enumerates(order, annotations)
    ensures q in Collected(annotations, order) && Collected(annotations, order)[q] == annotations[k]
  {
    CollectedUnique(annotations, order, k);
  }

  /** An unqualified and a qualified annotation of the same name, such as
      `ssarg.io/mount-configmap` and `ssarg.io/mount-configmap_1-2`, give two
      entries of that name, one unqualified and one qualified, each with its
      own value, whatever the enumeration order. */
  lemma CollectNameAndQualified(annotations: map<string, string>, order: seq<string>,
                                name: string, qualifier: string, v1: string, v2: string)
    requires SEPARATOR !in name && SEPARATOR !in qualifier && qualifier != ""
    requires annotations == map[PREFIX + name := v1, PREFIX + name + [SEPARATOR] + qualifier := v2]
    requires Enumerates(order, annotations)
    ensures forall q :: q in Collected(annotations, order) <==> q == QualifiedName("", name) || q == QualifiedName(qualifier, name)
    ensures Collected(annotations, order)[QualifiedName("", name)] == v1
    ensures Collected(annotations, order)[QualifiedName(qualifier, name)] == v2
  {
    var k1, k2 := PREFIX + name, PREFIX + name + [SEPARATOR] + qualifier;
    KeyNameUnqualified(name);
    KeyNameQualified(name, qualifier);
    assert k1 != k2 by {
      assert |k1| < |k2|;
    }
    assert annotations[k1] == v1 && annotations[k2] == v2;
    CollectedTwo(annotations, order, k1, k2, QualifiedName("", name), QualifiedName(qualifier, name));
  }

  /** The first key in `order` with the given name: the early return of a
      parser's loop over the index. */
  function FindByName(order: seq<QualifiedName>, name: string): (r: Option<QualifiedName>)
    ensures r.None? <==> forall i :: 0 <= i < |order| ==> order[i].name != name
    ensures r.Some? ==> r.value in order && r.value.name == name
    ensures r.Some? ==> exists i :: 0 <= i < |order| && order[i] == r.value && NoneNamedBefore(order, i, name)
    decreases |order|
  {
    if order == [] then None
    else if order[0].name == name then
      assert NoneNamedBefore(order, 0, name);
      Some(order[0])
    else
      var r := FindByName(order[1..], name);
      assert forall i :: 1 <= i < |order| ==> order[i] == order[1..][i - 1];
      if r.Some? then
        var i :| 0 <= i < |order| - 1 && order[1..][i] == r.value && NoneNamedBefore(order[1..], i, name);
        assert NoneNamedBefore(order, i + 1, name);
        r
      else r
  }

  /** No key before position `i` of `order` bears the name. */
  predicate NoneNamedBefore(order: seq<QualifiedName>, i: int, name: string)
    requires 0 <= i <= |order|
  {
    forall j :: 0 <= j < i ==> order[j].name != name
  }

  // ---------------------------------------------------------------------------
  // Ordinal qualifier

  /** `^\d+-\d+$` */
  predicate RangeForm(q: string) {
    exists i :: 0 <= i < |q| && q[i] == '-' && IsDigits(q[..i]) && IsDigits(q[i + 1..])
  }

  /** `^\d+$` */
  predicate ExactForm(q: string) {
    IsDigits(q)
  }

  /** `^\d+-$` */
  predicate LowerBoundForm(q: string) {
    |q| >= 2 && q[|q| - 1] == '-' && IsDigits(q[..|q| - 1])
  }

  /** `^-\d+$` */
  predicate UpperBoundForm(q: string) {
    |q| >= 2 && q[0] == '-' && IsDigits(q[1..])
  }

  /** A range qualifier splits into two numerals around its single '-'. */
  lemma RangeBounds(q: string)
    requires RangeForm(q)
    ensures var b := Split(q, '-'); |b| == 2 && IsDigits(b[0]) && IsDigits(b[1]) && q == b[0] + "-" + b[1]
  {
    var i :| 0 <= i < |q| && q[i] == '-' && IsDigits(q[..i]) && IsDigits(q[i + 1..]);
    var a, b := q[..i], q[i + 1..];
    DigitsHaveNoHyphen(a);
    DigitsHaveNoHyphen(b);
    assert q == a + "-" + b;
    assert Join([a, b], '-') == q;
    SplitJoin([a, b], '-');
  }

  /** An upper-bound qualifier splits into an empty piece and the numeral. */
  lemma UpperBounds(q: string)
    requires UpperBoundForm(q)
    ensures var b := Split(q, '-'); b == ["", q[1..]]
  {
    DigitsHaveNoHyphen(q[1..]);
    assert q == "" + "-" + q[1..];
    assert Join(["", q[1..]], '-') == q;
    SplitJoin(["", q[1..]], '-');
  }

  /** `CommonPodQualifier`: whether the replica with this ordinal is in the
      scope of the qualifier. The patterns are tried in order: empty, `N-M`,
      `N`, `N-`, `-N`; anything else is out of scope, never an error. */
  function Qualifies(ordinal: int, qualifier: string): (r: bool)
    ensures qualifier == "" ==> r
  {
    if qualifier == "" then true
    else
      var bounds := Split(qualifier, '-');
      if RangeForm(qualifier) then
        RangeBounds(qualifier);
        ordinal >= AtoiOrZero(bounds[0]) && ordinal <= AtoiOrZero(bounds[1])
      else if ExactForm(qualifier) then
        ordinal == AtoiOrZero(bounds[0])
      else if LowerBoundForm(qualifier) then
        ordinal >= AtoiOrZero(bounds[0])
      else if UpperBoundForm(qualifier) then
        UpperBounds(qualifier);
        ordinal <= AtoiOrZero(bounds[1])
      else false
  }

  /** A numeral, a '-' and a numeral are of the range form and split into the two numerals. */
  lemma RangeShape(lo: string, hi: string)
    requires IsDigits(lo) && IsDigits(hi)
    ensures RangeForm(lo + "-" + hi) && Split(lo + "-" + hi, '-') == [lo, hi]
  {
    var q := lo + "-" + hi;
    assert q[|lo|] == '-' && q[..|lo|] == lo && q[|lo| + 1..] == hi;
    DigitsHaveNoHyphen(lo);
    DigitsHaveNoHyphen(hi);
    assert Join([lo, hi], '-') == q;
    SplitJoin([lo, hi], '-');
  }

  /** `N-M` admits exactly the ordinals from N to M inclusive (none when N > M). */
  lemma QualifiesRange(ordinal: int, lo: string, hi: string)
    requires IsDigits(lo) && IsDigits(hi)
    ensures Qualifies(ordinal, lo + "-" + hi) <==> DigitsValue(lo) <= ordinal <= DigitsValue(hi)
  {
    RangeShape(lo, hi);
    DigitsAtoi(lo);
    DigitsAtoi(hi);
  }

  /** `N` admits exactly the ordinal N. */
  lemma QualifiesExact(ordinal: int, n: string)
    requires IsDigits(n)
    ensures Qualifies(ordinal, n) <==> ordinal == DigitsValue(n)
  {
    DigitsHaveNoHyphen(n);
    assert Join([n], '-') == n;
    SplitJoin([n], '-');
  }

  /** A numeral followed by '-' is of the lower-bound form only, and splits
      into the numeral and an empty piece. */
  lemma LowerBoundShape(lo: string)
    requires IsDigits(lo)
    ensures var q := lo + "-";
            !RangeForm(q) && !ExactForm(q) && LowerBoundForm(q) && Split(q, '-') == [lo, ""]
  {
    var q := lo + "-";
    DigitsHaveNoHyphen(lo);
    forall i | 0 <= i < |lo| ensures q[i] != '-' {
      assert q[i] == lo[i];
    }
    assert q[|lo| + 1..] == [];
    assert !ExactForm(q) by { assert !IsDigit(q[|lo|]); }
    assert q[..|q| - 1] == lo;
    assert Join([lo, ""], '-') == q;
    SplitJoin([lo, ""], '-');
  }

  /** `N-` admits exactly the ordinals from N upwards. */
  lemma QualifiesLowerBound(ordinal: int, lo: string)
    requires IsDigits(lo)
    ensures Qualifies(ordinal, lo + "-") <==> ordinal >= DigitsValue(lo)
  {
    LowerBoundShape(lo);
    DigitsAtoi(lo);
  }

  /** `-N` admits exactly the ordinals up to N. */
  lemma QualifiesUpperBound(ordinal: int, hi: string)
    requires IsDigits(hi)
    ensures Qualifies(ordinal, "-" + hi) <==> ordinal <= DigitsValue(hi)
  {
    var q := "-" + hi;
    assert q[1..] == hi;
    DigitsHaveNoHyphen(hi);
    forall i | 0 < i < |q| ensures q[i] != '-' {
      assert q[i] == hi[i - 1];
    }
    assert q[..0] == [];
    assert !ExactForm(q) by { assert !IsDigit(q[0]); }
    assert q[|q| - 1] == hi[|hi| - 1];
    UpperBounds(q);
  }

  /** A non-empty qualifier of none of the four shapes admits no ordinal. */
  lemma QualifiesNoForm(ordinal: int, q: string)
    requires q != ""
    requires !RangeForm(q) && !ExactForm(q) && !LowerBoundForm(q) && !UpperBoundForm(q)
    ensures !Qualifies(ordinal, q)
  {
  }

  /** A character that is neither a digit nor '-' puts every ordinal out of scope. */
  lemma QualifiesStrayCharacter(ordinal: int, qualifier: string, j: int)
    requires 0 <= j < |qualifier| && !IsDigit(qualifier[j]) && qualifier[j] != '-'
    ensures !Qualifies(ordinal, qualifier)
  {
    var q := qualifier;
    forall i | 0 <= i < |q| && q[i] == '-' ensures !(IsDigits(q[..i]) && IsDigits(q[i + 1..])) {
      if j < i {
        assert q[..i][j] == q[j];
      } else if j > i {
        assert q[i + 1..][j - i - 1] == q[j];
      }
    }
    assert !RangeForm(q);
    assert !ExactForm(q);
    if |q| >= 2 {
      if j < |q| - 1 { assert q[..|q| - 1][j] == q[j]; }
      if j > 0 { assert q[1..][j - 1] == q[j]; }
    }
    assert !LowerBoundForm(q);
    assert !UpperBoundForm(q);
    QualifiesNoForm(ordinal, q);
  }

  /** A qualifier with two '-' (such as `1-2-3`) puts every ordinal out of scope. */
  lemma QualifiesTwoHyphens(ordinal: int, qualifier: string, i: int, j: int)
    requires 0 <= i < j < |qualifier| && qualifier[i] == '-' && qualifier[j] == '-'
    ensures !Qualifies(ordinal, qualifier)
  {
    var q := qualifier;
    forall k | 0 <= k < |q| && q[k] == '-' ensures !(IsDigits(q[..k]) && IsDigits(q[k + 1..])) {
      if i < k { assert q[..k][i] == q[i]; } else { assert q[k + 1..][j - k - 1] == q[j]; }
    }
    assert !RangeForm(q);
    assert !ExactForm(q) by { assert !IsDigit(q[i]); }
    assert !LowerBoundForm(q) by { assert q[..|q| - 1][i] == q[i]; }
    assert !UpperBoundForm(q) by { assert q[1..][j - 1] == q[j]; }
    QualifiesNoForm(ordinal, q);
  }

  /** The documented behaviour of the qualifier on sample inputs: exact and
      range forms. */
  lemma QualifierExamplesClosed()
    ensures Qualifies(5, "") && Qualifies(5, "5") && !Qualifies(4, "5")
    ensures Qualifies(5, "1-10") && !Qualifies(11, "1-10")
    ensures !Qualifies(0, "1-2")
  {
    QualifiesExact(5, "5");
    QualifiesExact(4, "5");
    assert "1-10" == "1" + "-" + "10";
    QualifiesRange(5, "1", "10");
    QualifiesRange(11, "1", "10");
    assert "1-2" == "1" + "-" + "2";
    QualifiesRange(0, "1", "2");
  }

  /** The documented behaviour of the qualifier on sample inputs: open bounds. */
  lemma QualifierExamplesOpen()
    ensures Qualifies(5, "5-") && !Qualifies(4, "5-")
    ensures Qualifies(5, "-5") && !Qualifies(6, "-5")
  {
    assert "5-" == "5" + "-";
    QualifiesLowerBound(5, "5");
    QualifiesLowerBound(4, "5");
    assert "-5" == "-" + "5";
    QualifiesUpperBound(5, "5");
    QualifiesUpperBound(6, "5");
  }

  /** Malformed qualifiers and an inverted range admit no ordinal. */
  lemma QualifierExamplesMalformed(ordinal: int)
    ensures !Qualifies(ordinal, "not-a-qualifier") && !Qualifies(ordinal, "a")
    ensures !Qualifies(ordinal, "1-2-3") && !Qualifies(ordinal, "2-1")
  {
    QualifiesStrayCharacter(ordinal, "not-a-qualifier", 0);
    QualifiesStrayCharacter(ordinal, "a", 0);
    QualifiesTwoHyphens(ordinal, "1-2-3", 1, 3);
    assert "2-1" == "2" + "-" + "1";
    QualifiesRange(ordinal, "2", "1");
  }
}
