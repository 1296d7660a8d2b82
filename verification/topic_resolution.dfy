/** Topic and group resolution: the ordinal substring test the factories and
    the producer wrapper use to pick a topic by name fragment, and the
    first/last entry rules for consumer-group identifiers. */
module TopicResolution {
  import opened Wrappers

  /** `fragment` occurs in `s` starting at index `i`. */
  ghost predicate OccursAt(s: string, fragment: string, i: int)
  {
    0 <= i <= |s| - |fragment| && s[i..i + |fragment|] == fragment
  }

  /** Ordinal substring test (string.Contains(string)); the empty fragment occurs
      in every string. */
  predicate Contains(s: string, fragment: string)
    decreases |s|
  {
    |fragment| <= |s| && (s[..|fragment|] == fragment || Contains(s[1..], fragment))
  }

  /** The scan agrees with the positional definition, in both directions. */
  lemma {:induction false} ContainsIff(s: string, fragment: string)
    ensures Contains(s, fragment) <==> exists i :: OccursAt(s, fragment, i)
    decreases |s|
  {
    var n := |fragment|;
    if n > |s| {
    } else if s[..n] == fragment {
      assert OccursAt(s, fragment, 0);
    } else {
      ContainsIff(s[1..], fragment);
      if Contains(s, fragment) {
        var i :| OccursAt(s[1..], fragment, i);
        OccursShift(s, fragment, i);
      }
      if exists i :: OccursAt(s, fragment, i) {
        var i :| OccursAt(s, fragment, i);
        assert i != 0 by { assert s[0..n] == s[..n]; }
        OccursShift(s, fragment, i - 1);
      }
    }
  }

  /** Dropping the first character shifts every occurrence one place left. */
  lemma OccursShift(s: string, fragment: string, i: int)
    requires |s| > 0 && 0 <= i
    ensures OccursAt(s[1..], fragment, i) <==> OccursAt(s, fragment, i + 1)
  {
    if 0 <= i <= |s| - 1 - |fragment| {
      assert s[1..][i..i + |fragment|] == s[i + 1..i + 1 + |fragment|];
    }
  }

  /** A fragment with a character that `s` lacks does not occur in `s`. */
  lemma MissingCharNotContained(s: string, fragment: string, k: int)
    requires 0 <= k < |fragment| && fragment[k] !in s
    ensures !Contains(s, fragment)
  {
    ContainsIff(s, fragment);
  }

  /** Index of the first topic containing `fragment`, None when none does. */
  function FirstIndex(topics: seq<string>, fragment: string): (r: Option<nat>)
    ensures r.Some? ==> r.value < |topics| && Contains(topics[r.value], fragment)
    ensures r.Some? ==> forall j :: 0 <= j < r.value ==> !Contains(topics[j], fragment)
    ensures r.None? <==> forall j :: 0 <= j < |topics| ==> !Contains(topics[j], fragment)
  {
    if topics == [] then None
    else if Contains(topics[0], fragment) then Some(0)
    else
      match FirstIndex(topics[1..], fragment)
      case None => None
      case Some(k) => Some(k + 1)
  }

  /** `Topics.First(f => f.Contains(fragment))`: the first topic whose name
      contains the fragment; None stands for the "no matching element" failure. */
  function FirstContaining(topics: seq<string>, fragment: string): (r: Option<string>)
    ensures r.Some? ==> exists j :: 0 <= j < |topics| && topics[j] == r.value && Contains(r.value, fragment)
                                   && forall i :: 0 <= i < j ==> !Contains(topics[i], fragment)
    ensures r.None? <==> forall j :: 0 <= j < |topics| ==> !Contains(topics[j], fragment)
  {
    match FirstIndex(topics, fragment)
    case None => None
    case Some(k) => Some(topics[k])
  }

  /** `GroupId.First()`; None stands for "sequence contains no elements". */
  function FirstGroup(groups: seq<string>): (r: Option<string>)
    ensures r.Some? <==> groups != []
  {
    if groups == [] then None else Some(groups[0])
  }

  /** `GroupId.Last()`; None stands for "sequence contains no elements". */
  function LastGroup(groups: seq<string>): (r: Option<string>)
    ensures r.Some? <==> groups != []
  {
    if groups == [] then None else Some(groups[|groups| - 1])
  }

  /** With a single group both roles bind to it; with two, the primary role
      binds the first and the retry role the second. */
  lemma GroupRoles(g1: string, g2: string)
    ensures FirstGroup([g1]) == LastGroup([g1]) == Some(g1)
    ensures FirstGroup([g1, g2]) == Some(g1) && LastGroup([g1, g2]) == Some(g2)
  {
  }

  /** The example topic table resolves each role to its own topic. */
  lemma ExampleTopicTable()
    ensures FirstContaining(["t.xxx", "t.xxy"], "xxx") == Some("t.xxx")
    ensures FirstContaining(["t.xxx", "t.xxy"], "xxy") == Some("t.xxy")
  {
    var a, b := "t.xxx", "t.xxy";
    assert OccursAt(a, "xxx", 2);
    ContainsIff(a, "xxx");
    assert FirstIndex([a, b], "xxx") == Some(0);
    assert OccursAt(b, "xxy", 2);
    ContainsIff(b, "xxy");
    MissingCharNotContained(a, "xxy", 2);
    assert [a, b][1..] == [b];
    assert FirstIndex([b], "xxy") == Some(0);
    assert FirstIndex([a, b], "xxy") == Some(1);
  }
}
