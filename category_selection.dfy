/**
 The dashboard's set of selected categories. The source keeps it in an
 insertion-ordered set, so it is modelled as a sequence without duplicates:
 deleting a member keeps the others in their order, adding appends.
 */
module CategorySelection {
  import opened LandUseData

  /** No category occurs twice. */
  predicate NoDup(s: seq<Category>) {
    forall i, j :: 0 <= i < j < |s| ==> s[i] != s[j]
  }

  /** The set's `delete`: every member but `c`, in their previous order. */
  function Remove(s: seq<Category>, c: Category): (r: seq<Category>)
    ensures forall d :: d in r <==> d in s && d != c
    ensures NoDup(s) ==> NoDup(r)
    ensures c in s && NoDup(s) ==> |r| == |s| - 1
    ensures c !in s ==> r == s
    ensures c in s && NoDup(s) ==> exists i :: 0 <= i < |s| && s[i] == c && r == s[..i] + s[i + 1..]
  {
    if s == [] then []
    else
      var rest := Remove(s[..|s| - 1], c);
      RemoveStep(s, c, rest);
      if s[|s| - 1] == c then rest else rest + [s[|s| - 1]]
  }

  /** `r` is `s` with one position holding `c` cut out. */
  ghost predicate CutOut(s: seq<Category>, c: Category, r: seq<Category>) {
    exists i :: 0 <= i < |s| && s[i] == c && r == s[..i] + s[i + 1..]
  }

  /**
   The induction step of Remove's contract: what deleting `c` from all but the
   last element gave (`rest`) extends to the whole sequence.
   */
  lemma RemoveStep(s: seq<Category>, c: Category, rest: seq<Category>)
    requires s != []
    requires forall d :: d in rest <==> d in s[..|s| - 1] && d != c
    requires NoDup(s[..|s| - 1]) ==> NoDup(rest)
    requires c in s[..|s| - 1] && NoDup(s[..|s| - 1]) ==> |rest| == |s| - 2
    requires c !in s[..|s| - 1] ==> rest == s[..|s| - 1]
    requires c in s[..|s| - 1] && NoDup(s[..|s| - 1]) ==> CutOut(s[..|s| - 1], c, rest)
    ensures var r := if s[|s| - 1] == c then rest else rest + [s[|s| - 1]];
      && (forall d :: d in r <==> d in s && d != c)
      && (NoDup(s) ==> NoDup(r))
      && (c in s && NoDup(s) ==> |r| == |s| - 1)
      && (c !in s ==> r == s)
      && (c in s && NoDup(s) ==> exists i :: 0 <= i < |s| && s[i] == c && r == s[..i] + s[i + 1..])
  {
    var init, last := s[..|s| - 1], s[|s| - 1];
    assert s == init + [last];
    if NoDup(s) {
      assert last !in init by {
        forall i | 0 <= i < |init| ensures init[i] != last { assert s[i] != s[|s| - 1]; }
      }
      assert NoDup(init);
      if last != c {
        NoDupAppend(rest, last);
      }
      if c in s {
        CutOutStep(init, last, c, rest);
      }
    }
  }

  /** Appending a category that is absent keeps a sequence free of duplicates. */
  lemma NoDupAppend(t: seq<Category>, x: Category)
    requires NoDup(t) && x !in t
    ensures NoDup(t + [x])
  {
  }


  /**
   The step of Remove's order proof: if deleting `c` from `init` cut out its
   one position, then deleting it from `init + [last]` cuts out its position too.
   */
  lemma CutOutStep(init: seq<Category>, last: Category, c: Category, rest: seq<Category>)
    requires NoDup(init + [last]) && c in init + [last]
    requires c !in init ==> rest == init
    requires c in init ==> exists i :: 0 <= i < |init| && init[i] == c && rest == init[..i] + init[i + 1..]
    ensures var s, r := init + [last], if last == c then rest else rest + [last];
      exists i :: 0 <= i < |s| && s[i] == c && r == s[..i] + s[i + 1..]
  {
    var s := init + [last];
    if last == c {
      assert c !in init by {
        forall i | 0 <= i < |init| ensures init[i] != c { assert s[i] != s[|s| - 1]; }
      }
      assert s[..|init|] == init;
      assert s[|init| + 1..] == [];
      assert s[|init|] == c && rest == s[..|init|] + s[|init| + 1..];
    } else {
      assert c in init;
      var i :| 0 <= i < |init| && init[i] == c && rest == init[..i] + init[i + 1..];
      SpliceThenAppend(init, last, i);
      assert s[i] == c && rest + [last] == s[..i] + s[i + 1..];
    }
  }

  /** Cutting position i out and then appending equals appending and then cutting position i out. */
  lemma SpliceThenAppend(init: seq<Category>, last: Category, i: nat)
    requires i < |init|
    ensures (init[..i] + init[i + 1..]) + [last] == (init + [last])[..i] + (init + [last])[i + 1..]
  {
  }

  /**
   The dashboard's category toggle: removes `c` when it is selected and
   otherwise appends it; every other category keeps its membership.
   */
  function Toggle(s: seq<Category>, c: Category): (r: seq<Category>)
    ensures c in r <==> c !in s
    ensures forall d :: d != c ==> (d in r <==> d in s)
    ensures NoDup(s) ==> NoDup(r)
    ensures c !in s ==> r == s + [c]
    ensures c in s && NoDup(s) ==> exists i :: 0 <= i < |s| && s[i] == c && r == s[..i] + s[i + 1..]
  {
    if c in s then Remove(s, c) else s + [c]
  }

  /**
   Toggling the same category twice restores the membership of every
   category. The sequence itself comes back unchanged when `c` was not
   selected; when it was, `c` returns at the end of the iteration order.
   */
  lemma ToggleTwice(s: seq<Category>, c: Category)
    requires NoDup(s)
    ensures forall d :: d in Toggle(Toggle(s, c), c) <==> d in s
    ensures c !in s ==> Toggle(Toggle(s, c), c) == s
    ensures c in s ==> Toggle(Toggle(s, c), c) == Remove(s, c) + [c]
  {
  }
}
