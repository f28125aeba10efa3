/** The StatefulSet pod identity: the owning workload's name and the replica
    ordinal, read from the pod-name label that the StatefulSet controller sets. */
module Identity {
  import opened Wrappers
  import opened Strings

  const POD_NAME_LABEL: string := "statefulset.kubernetes.io/pod-name"

  datatype IdentityError = MissingLabel | UnexpectedLabelValue

  /** The `(name, ordinal, err)` triple: `("", -1, err)` on failure. */
  datatype PodIdentity = PodIdentity(name: string, ordinal: int, err: Option<IdentityError>)

  /** The unanchored pattern `.+-\d+`: somewhere in the label a '-' follows a
      character other than a newline and precedes a digit. */
  predicate HasHyphenDigit(l: string): (r: bool)
    ensures r ==> |l| >= 3 && '-' in l
  {
    exists i :: 1 <= i < |l| - 1 && l[i] == '-' && l[i - 1] != '\n' && IsDigit(l[i + 1])
  }

  /** The pattern is unanchored: text before or after a matching label
      keeps it matching. */
  lemma HasHyphenDigitUnanchored(pre: string, l: string, post: string)
    requires HasHyphenDigit(l)
    ensures HasHyphenDigit(pre + l + post)
  {
    var i :| 1 <= i < |l| - 1 && l[i] == '-' && l[i - 1] != '\n' && IsDigit(l[i + 1]);
    var m := pre + l + post;
    assert m[|pre| + i] == l[i] && m[|pre| + i - 1] == l[i - 1] && m[|pre| + i + 1] == l[i + 1];
  }

  /** An accepted label splits at its last '-' into a non-empty name and a
      tail without '-', which Atoi never reads as negative. */
  lemma SplitAtLastHyphen(l: string)
    requires HasHyphenDigit(l)
    ensures var i := LastIndexOf(l, '-');
            && 0 < i < |l|
            && l == l[..i] + "-" + l[i + 1..]
            && '-' !in l[i + 1..]
            && AtoiOrZero(l[i + 1..]) >= 0
  {
    var k :| 1 <= k < |l| - 1 && l[k] == '-' && l[k - 1] != '\n' && IsDigit(l[k + 1]);
    assert l[k] in l;
    var i := LastIndexOf(l, '-');
    assert i >= k;
    SplitAtLastIndex(l, '-');
    AtoiOrZeroNonNegative(l[i + 1..]);
  }

  /** The label-based identifier: on success the name is everything before the
      last '-' and the ordinal is what Atoi makes of everything after it, with
      a syntax error read as 0. */
  function Extract(labels: map<string, string>): (r: PodIdentity)
    ensures r.err.Some? ==> r.name == "" && r.ordinal == -1
    ensures r.err == Some(MissingLabel) <==> POD_NAME_LABEL !in labels
    ensures r.err == Some(UnexpectedLabelValue) <==>
            POD_NAME_LABEL in labels && !HasHyphenDigit(labels[POD_NAME_LABEL])
    ensures r.err.None? ==> POD_NAME_LABEL in labels && 0 < |r.name| < |labels[POD_NAME_LABEL]|
    ensures r.err.None? ==>
              var l := labels[POD_NAME_LABEL];
              var tail := l[|r.name| + 1..];
              && l == r.name + "-" + tail
              && '-' !in tail
              && r.ordinal == AtoiOrZero(tail)
              && r.ordinal >= 0
  {
    if POD_NAME_LABEL !in labels then PodIdentity("", -1, Some(MissingLabel))
    else
      var l := labels[POD_NAME_LABEL];
      if !HasHyphenDigit(l) then PodIdentity("", -1, Some(UnexpectedLabelValue))
      else
        var i := LastIndexOf(l, '-');
        SplitAtLastHyphen(l);
        PodIdentity(l[..i], AtoiOrZero(l[i + 1..]), None)
  }

  /** A label `<name>-<digits>` identifies replica `<digits>` of workload
      `<name>`; the name may itself contain '-'. */
  lemma ExtractWellFormed(labels: map<string, string>, name: string, digits: string)
    requires POD_NAME_LABEL in labels && labels[POD_NAME_LABEL] == name + "-" + digits
    requires name != "" && name[|name| - 1] != '\n'
    requires IsDigits(digits)
    ensures Extract(labels) == PodIdentity(name, DigitsValue(digits), None)
  {
    var l := name + "-" + digits;
    assert l[|name|] == '-' && l[|name| - 1] != '\n' && IsDigit(l[|name| + 1]);
    assert HasHyphenDigit(l);
    DigitsHaveNoHyphen(digits);
    LastIndexOfBefore(name, '-', digits);
    assert l[..|name|] == name && l[|name| + 1..] == digits;
    DigitsAtoi(digits);
    assert Extract(labels).err.None?;
    assert Extract(labels).name == name;
  }

  /** The pattern is not anchored and the Atoi error is discarded: a label
      that matches somewhere but whose text after the last '-' is not a
      (signed) numeral is still accepted, with ordinal 0. */
  lemma ExtractNonNumericTail(labels: map<string, string>, name: string, tail: string)
    requires POD_NAME_LABEL in labels && labels[POD_NAME_LABEL] == name + "-" + tail
    requires HasHyphenDigit(name + "-" + tail)
    requires '-' !in tail
    requires Atoi(tail).None?
    ensures Extract(labels) == PodIdentity(name, 0, None)
  {
    var l := name + "-" + tail;
    LastIndexOfBefore(name, '-', tail);
    assert l[..|name|] == name && l[|name| + 1..] == tail;
    assert Extract(labels).err.None?;
    assert Extract(labels).name == name;
  }

  lemma ExtractExamples()
    ensures Extract(map[]) == PodIdentity("", -1, Some(MissingLabel))
    ensures Extract(map[POD_NAME_LABEL := "wrong" + "-" + "label"]) == PodIdentity("", -1, Some(UnexpectedLabelValue))
    ensures Extract(map[POD_NAME_LABEL := "dummy-ss" + "-" + "0"]) == PodIdentity("dummy-ss", 0, None)
  {
    var wrong := "wrong" + "-" + "label";
    forall i | 1 <= i < |wrong| - 1 && wrong[i] == '-' ensures !IsDigit(wrong[i + 1]) {
      assert i == 5;
    }
    ExtractWellFormed(map[POD_NAME_LABEL := "dummy-ss" + "-" + "0"], "dummy-ss", "0");
  }

  /** The unanchored pattern lets through a label whose last part is not a
      number: it is read as replica 0. */
  lemma ExtractDigitLedTailExample()
    ensures Extract(map[POD_NAME_LABEL := "a" + "-" + "1x"]) == PodIdentity("a", 0, None)
  {
    var l := "a" + "-" + "1x";
    assert l[1] == '-' && l[0] != '\n' && IsDigit(l[2]);
    assert !IsDigits("1x") && !IsSignedDigits("1x") by { assert !IsDigit("1x"[1]); }
    ExtractNonNumericTail(map[POD_NAME_LABEL := l], "a", "1x");
  }

  /** The match need not be at the last '-': `a-1-x` matches at `-1`, and the
      split at the last '-' makes it replica 0 of workload `a-1`. */
  lemma ExtractHyphenInNameExample()
    ensures Extract(map[POD_NAME_LABEL := "a-1" + "-" + "x"]) == PodIdentity("a-1", 0, None)
  {
    var l := "a-1" + "-" + "x";
    assert l[1] == '-' && l[0] != '\n' && IsDigit(l[2]);
    assert !IsDigits("x") && !IsSignedDigits("x") by { assert !IsDigit("x"[0]); }
    ExtractNonNumericTail(map[POD_NAME_LABEL := l], "a-1", "x");
  }

  /** A tail written with a '+' sign reads as the number after the sign; the
      tail cannot carry a '-', which would have been the last one. */
  lemma ExtractSignedTail(labels: map<string, string>, name: string, tail: string)
    requires POD_NAME_LABEL in labels && labels[POD_NAME_LABEL] == name + "-" + tail
    requires HasHyphenDigit(name + "-" + tail)
    requires '-' !in tail
    requires IsSignedDigits(tail)
    ensures tail[0] == '+'
    ensures Extract(labels) == PodIdentity(name, DigitsValue(tail[1..]), None)
  {
    assert tail[0] in tail;
    var l := name + "-" + tail;
    LastIndexOfBefore(name, '-', tail);
    assert l[..|name|] == name && l[|name| + 1..] == tail;
    assert Extract(labels).err.None?;
    assert Extract(labels).name == name;
  }

  /** `a-1-+5` is replica 5 of workload `a-1`. */
  lemma ExtractSignedTailExample()
    ensures Extract(map[POD_NAME_LABEL := "a-1" + "-" + "+5"]) == PodIdentity("a-1", 5, None)
  {
    var l := "a-1" + "-" + "+5";
    assert l[1] == '-' && l[0] != '\n' && IsDigit(l[2]);
    assert "+5"[1..] == "5" && IsDigits("5");
    assert DigitsValue("5") == 5;
    ExtractSignedTail(map[POD_NAME_LABEL := l], "a-1", "+5");
  }
}
