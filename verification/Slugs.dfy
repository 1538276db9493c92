/** Public slugs of properties: the search loop of Property.save. */
module Slugs {
  import opened Rows
  import Decimals

  type PropertyId = nat

  /** base, base-2, base-3, ... */
  function Candidate(base: string, k: nat): string
  {
    if k == 0 then base else base + "-" + Decimals.Text(k + 1)
  }

  lemma TextsDiffer(m: nat, n: nat)
    requires m != n
    ensures Decimals.Text(m) != Decimals.Text(n)
  {
    Decimals.ValueOfText(m);
    Decimals.ValueOfText(n);
  }

  lemma {:induction false} CandidatesDiffer(base: string, i: nat, j: nat)
    requires i != j
    ensures Candidate(base, i) != Candidate(base, j)
  {
    if i > 0 && j > 0 {
      TextsDiffer(i + 1, j + 1);
      hide Decimals.Text;
      var head := base + "-";
      assert Candidate(base, i)[|head|..] == Decimals.Text(i + 1);
      assert Candidate(base, j)[|head|..] == Decimals.Text(j + 1);
    } else {
      assert |Candidate(base, i)| != |Candidate(base, j)|;
    }
  }

  function FirstCandidates(base: string, k: nat): set<string>
  {
    set i | 0 <= i < k :: Candidate(base, i)
  }

  lemma {:induction false} FirstCandidatesSize(base: string, k: nat)
    ensures |FirstCandidates(base, k)| == k
  {
    if k > 0 {
      FirstCandidatesSize(base, k - 1);
      var last := Candidate(base, k - 1);
      forall i | 0 <= i < k - 1 ensures Candidate(base, i) != last {
        CandidatesDiffer(base, i, k - 1);
      }
      hide Candidate;
      assert FirstCandidates(base, k) == FirstCandidates(base, k - 1) + {last};
    } else {
      assert FirstCandidates(base, 0) == {};
    }
  }

  /** Pigeonhole: n slugs in use cannot be more than n of the candidates. */
  lemma {:induction false} TakenAreFew(base: string, others: set<string>, k: nat)
    requires forall i :: 0 <= i < k ==> Candidate(base, i) in others
    ensures k <= |others|
  {
    FirstCandidatesSize(base, k);
    SubsetSize(FirstCandidates(base, k), others);
  }

  /** The first candidate nobody else has. */
  ghost predicate FirstFree(base: string, others: set<string>, k: nat)
  {
    Candidate(base, k) !in others && forall i :: 0 <= i < k ==> Candidate(base, i) in others
  }

  /** The slugs of the other rows. */
  function Others(slugs: map<PropertyId, string>, id: PropertyId): set<string>
  {
    set p | p in slugs && p != id :: slugs[p]
  }

  lemma {:induction false} ImageIsNoLarger(domain: set<PropertyId>, f: map<PropertyId, string>)
    requires domain <= f.Keys
    ensures |Image(domain, f)| <= |domain|
  {
    if domain == {} {
      assert Image(domain, f) == {};
    } else {
      var a :| a in domain;
      ImageIsNoLarger(domain - {a}, f);
      assert Image(domain, f) == Image(domain - {a}, f) + {f[a]};
    }
  }

  lemma {:induction false} OthersSize(slugs: map<PropertyId, string>, id: PropertyId)
    ensures |Others(slugs, id)| <= |slugs.Keys - {id}|
  {
    ImageIsNoLarger(slugs.Keys - {id}, slugs);
    assert Others(slugs, id) == Image(slugs.Keys - {id}, slugs);
  }

  ghost predicate AllDifferent(slugs: map<PropertyId, string>)
  {
    forall p, q :: p in slugs && q in slugs && p != q ==> slugs[p] != slugs[q]
  }

  class PropertyTable {
    var slugs: map<PropertyId, string>

    constructor ()
      ensures slugs == map[]
    {
      slugs := map[];
    }

    method FindSlug(id: PropertyId, base: string) returns (slug: string, probes: nat)
      ensures 1 <= probes <= |slugs.Keys - {id}| + 1
      ensures slug == Candidate(base, probes - 1)
      ensures FirstFree(base, Others(slugs, id), probes - 1)
    {
      hide Decimals.Text, Others, FirstCandidates;
      var others := Others(slugs, id);
      OthersSize(slugs, id);
      slug := base;
      var n := 2;
      TakenAreFew(base, others, 0);
      while slug in others
        invariant n >= 2 && n - 2 <= |others|
        invariant slug == Candidate(base, n - 2)
        invariant forall i :: 0 <= i < n - 2 ==> Candidate(base, i) in others
        decreases |others| + 2 - n
      {
        slug := base + "-" + Decimals.Text(n);
        n := n + 1;
        TakenAreFew(base, others, n - 2);
      }
      probes := n - 1;
    }

    /** A slug already set is kept as it is.  A blank one becomes the first free candidate, found
        after at most one probe more than there are other rows. */
    method Save(id: PropertyId, publicSlug: string, slugified: string)
      returns (slug: string, probes: nat)
      modifies this
      ensures slugs == old(slugs)[id := slug]
      ensures publicSlug != "" ==> slug == publicSlug && probes == 0
      ensures publicSlug == "" ==>
                var base := if slugified != "" then slugified else "property";
                && 1 <= probes <= |old(slugs).Keys - {id}| + 1
                && slug == Candidate(base, probes - 1)
                && FirstFree(base, Others(old(slugs), id), probes - 1)
    {
      slug, probes := publicSlug, 0;
      if publicSlug == "" {
        var base := if slugified != "" then slugified else "property";
        slug, probes := FindSlug(id, base);
      }
      slugs := slugs[id := slug];
    }
  }

  /** Saving keeps all slugs different exactly when the slug was left blank or nobody else has the
      one given: nothing checks a slug that is set. */
  lemma {:induction false} SavingKeepsSlugsDifferentIff(slugs: map<PropertyId, string>,
                                                        id: PropertyId, publicSlug: string,
                                                        base: string, k: nat)
    requires AllDifferent(slugs) && FirstFree(base, Others(slugs, id), k)
    ensures AllDifferent(slugs[id := if publicSlug != "" then publicSlug else Candidate(base, k)])
            <==> publicSlug == "" || publicSlug !in Others(slugs, id)
  {
    var slug := if publicSlug != "" then publicSlug else Candidate(base, k);
    var after := slugs[id := slug];
    if slug in Others(slugs, id) {
      var p :| p in slugs && p != id && slugs[p] == slug;
      assert after[p] == after[id];
    }
  }

  /** A slug given by hand that another property has is saved all the same. */
  lemma {:induction false} GivenSlugCollides()
    ensures
      var slugs: map<PropertyId, string> := map[1 := "lodge", 2 := "lodge-2"];
      && AllDifferent(slugs)
      && "lodge" in Others(slugs, 2) && !AllDifferent(slugs[2 := "lodge"])
  {
    var slugs: map<PropertyId, string> := map[1 := "lodge", 2 := "lodge-2"];
    assert |"lodge"| != |"lodge-2"|;
    assert slugs[1] == "lodge" && slugs[2 := "lodge"][1] == slugs[2 := "lodge"][2];
  }
}
