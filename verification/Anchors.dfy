// Heading ids: the slug of the text, and "-n" appended to the n-th heading with the same slug.

module Anchors {
  import opened Decimal

  function Count(slugs: seq<string>, slug: string): nat {
    if slugs == [] then 0
    else Count(slugs[..|slugs| - 1], slug) + if slugs[|slugs| - 1] == slug then 1 else 0
  }

  function Anchor(slug: string, occurrence: nat): string {
    if occurrence <= 1 then slug else slug + "-" + Dec(occurrence)
  }

  // The ids of the headings, in order.
  function Ids(slugs: seq<string>): (ids: seq<string>)
    ensures |ids| == |slugs|
  {
    if slugs == [] then []
    else
      var last := slugs[|slugs| - 1];
      Ids(slugs[..|slugs| - 1]) + [Anchor(last, Count(slugs, last))]
  }

  // `used` in convert: how often each slug has come up.
  function Used(slugs: seq<string>): map<string, nat> {
    map slug | slug in slugs :: Count(slugs, slug)
  }

  // Some heading's own slug looks like the id made for a repetition of another slug.
  ghost predicate SuffixClash(slugs: seq<string>) {
    exists i, j, k: nat :: 0 <= i < |slugs| && 0 <= j < |slugs| && ClashAt(slugs, i, j, k)
  }

  ghost predicate ClashAt(slugs: seq<string>, i: nat, j: nat, k: nat)
    requires i < |slugs| && j < |slugs|
  {
    2 <= k <= Count(slugs, slugs[j]) && slugs[i] == slugs[j] + "-" + Dec(k)
  }

  ghost predicate Distinct(ids: seq<string>) {
    forall i, j :: 0 <= i < j < |ids| ==> ids[i] != ids[j]
  }

  lemma {:induction false} IdAt(slugs: seq<string>, i: nat)
    requires i < |slugs|
    ensures Ids(slugs)[i] == Anchor(slugs[i], Count(slugs[..i + 1], slugs[i]))
    decreases |slugs|
  {
    var front := slugs[..|slugs| - 1];
    if i < |front| {
      IdAt(front, i);
      assert front[..i + 1] == slugs[..i + 1];
    } else {
      assert slugs[..i + 1] == slugs;
    }
  }

  lemma {:induction false} CountMonotone(slugs: seq<string>, i: nat, j: nat, slug: string)
    requires i <= j <= |slugs|
    ensures Count(slugs[..i], slug) <= Count(slugs[..j], slug)
    decreases j
  {
    if i == j {
    } else {
      CountMonotone(slugs, i, j - 1, slug);
      assert slugs[..j][..j - 1] == slugs[..j - 1];
    }
  }

  // Later occurrences have larger numbers.
  lemma CountGrows(slugs: seq<string>, i: nat, j: nat)
    requires i < j < |slugs| && slugs[i] == slugs[j]
    ensures 1 <= Count(slugs[..i + 1], slugs[i]) < Count(slugs[..j + 1], slugs[j])
  {
    assert slugs[..i + 1][..i] == slugs[..i];
    assert slugs[..j + 1][..j] == slugs[..j];
    CountMonotone(slugs, i + 1, j, slugs[i]);
  }

  // Every number up to the final count belongs to an occurrence.
  lemma {:induction false} Occurrence(slugs: seq<string>, slug: string, k: nat) returns (p: nat)
    requires 1 <= k <= Count(slugs, slug)
    ensures p < |slugs| && slugs[p] == slug && Count(slugs[..p + 1], slug) == k
    decreases |slugs|
  {
    var front := slugs[..|slugs| - 1];
    if k <= Count(front, slug) {
      p := Occurrence(front, slug, k);
      assert front[..p + 1] == slugs[..p + 1];
    } else {
      p := |slugs| - 1;
      assert slugs[..p + 1] == slugs;
    }
  }

  // Anchors of different slugs agree only if one is bare and the other numbered.
  lemma EqualAnchors(u: string, a: nat, v: string, b: nat)
    requires u != v && a >= 1 && b >= 1 && Anchor(u, a) == Anchor(v, b)
    ensures (a >= 2 && b == 1 && v == u + "-" + Dec(a)) || (b >= 2 && a == 1 && u == v + "-" + Dec(b))
  {
    if a >= 2 && b >= 2 {
      NoDash(a);
      NoDash(b);
      SplitAtDash(u, Dec(a), v, Dec(b));
    }
  }

  // Two headings share an id only through a clash.
  lemma EqualIdsClash(slugs: seq<string>, i: nat, j: nat)
    requires i < j < |slugs| && Ids(slugs)[i] == Ids(slugs)[j]
    ensures SuffixClash(slugs)
  {
    hide Ids, Anchor, Dec;
    IdAt(slugs, i);
    IdAt(slugs, j);
    var a, b := Count(slugs[..i + 1], slugs[i]), Count(slugs[..j + 1], slugs[j]);
    CountInRange(slugs, i);
    CountInRange(slugs, j);
    if slugs[i] == slugs[j] {
      CountGrows(slugs, i, j);
      SameSlugDiffers(slugs[i], a, b);
    } else {
      EqualAnchors(slugs[i], a, slugs[j], b);
      hide Count;
      if a >= 2 {
        assert ClashAt(slugs, j, i, a);
      } else {
        assert ClashAt(slugs, i, j, b);
      }
    }
  }

  lemma CountInRange(slugs: seq<string>, i: nat)
    requires i < |slugs|
    ensures 1 <= Count(slugs[..i + 1], slugs[i]) <= Count(slugs, slugs[i])
  {
    assert slugs[..|slugs|] == slugs && slugs[..i + 1][..i] == slugs[..i];
    CountMonotone(slugs, i + 1, |slugs|, slugs[i]);
  }

  lemma SameSlugDiffers(slug: string, a: nat, b: nat)
    requires 1 <= a < b
    ensures Anchor(slug, a) != Anchor(slug, b)
  {
    if a == 1 {
      assert |Anchor(slug, b)| > |slug|;
    } else if Anchor(slug, a) == Anchor(slug, b) {
      NoDash(a);
      NoDash(b);
      SplitAtDash(slug, Dec(a), slug, Dec(b));
      Injective(a, b);
    }
  }

  // A clash gives two headings one id.
  lemma ClashEqualIds(slugs: seq<string>)
    requires SuffixClash(slugs)
    ensures !Distinct(Ids(slugs))
  {
    var i, j, k: nat :| 0 <= i < |slugs| && 0 <= j < |slugs| && ClashAt(slugs, i, j, k);
    var p := Occurrence(slugs, slugs[j], k);
    assert slugs[..|slugs|] == slugs && slugs[..i + 1][..i] == slugs[..i];
    CountMonotone(slugs, i + 1, |slugs|, slugs[i]);
    var q := Occurrence(slugs, slugs[i], 1);
    IdAt(slugs, p);
    IdAt(slugs, q);
    assert |slugs[i]| > |slugs[j]|;
    assert Ids(slugs)[p] == Ids(slugs)[q] && p != q;
  }

  // The ids are pairwise distinct exactly when no slug is another's with a reachable "-k".
  lemma DistinctExactlyWithoutClash(slugs: seq<string>)
    ensures Distinct(Ids(slugs)) <==> !SuffixClash(slugs)
  {
    if SuffixClash(slugs) { ClashEqualIds(slugs); }
    if !Distinct(Ids(slugs)) {
      var i, j :| 0 <= i < j < |Ids(slugs)| && Ids(slugs)[i] == Ids(slugs)[j];
      EqualIdsClash(slugs, i, j);
    }
  }

  // The deduplication does not catch a heading that is already called what it would make.
  lemma DeduplicationFails()
    ensures Ids(["note", "note", "note-2"]) == ["note", "note-2", "note-2"]
  {
    var s := ["note", "note", "note-2"];
    assert s[..2] == ["note", "note"] && s[..2][..1] == ["note"] && s[..2][..1][..0] == [];
    assert Count(["note"], "note") == 1 by { assert ["note"][..0] == []; }
    assert Count(["note", "note"], "note") == 2;
    assert "note" != "note-2" by { assert |"note"| != |"note-2"|; }
    assert Count(["note"], "note-2") == 0 && Count(["note", "note"], "note-2") == 0 by { assert ["note"][..0] == []; }
    assert Dec(2) == "2";
    assert "note" + "-" + Dec(2) == "note-2";
    assert Ids(["note"]) == ["note"];
    assert Ids(["note", "note"]) == ["note", "note-2"];
  }
}
