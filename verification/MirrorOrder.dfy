/** The order in which a reconcile request upserts its problems: roots before the mirrors that point at them. */
module MirrorOrder {
  import opened Common

  datatype Problem = Problem(externalId: string, mirrorOf: Option<string>, payload: string)

  function Ids(problems: seq<Problem>): set<string> {
    set p | p in problems :: p.externalId
  }

  /** Map's constructor: a later entry with the same key replaces an earlier one. */
  function ById(catalog: seq<Problem>): (m: map<string, Problem>)
    ensures m.Keys == Ids(catalog)
    ensures forall id :: id in m ==> m[id] in catalog && m[id].externalId == id
    decreases |catalog|
  {
    if catalog == [] then map[]
    else
      var last := catalog[|catalog| - 1];
      assert catalog == catalog[..|catalog| - 1] + [last];
      ById(catalog[..|catalog| - 1])[last.externalId := last]
  }

  /** The problem names a root that the catalog holds. */
  predicate LinksTo(catalog: seq<Problem>, p: Problem, root: string) {
    p.mirrorOf == Some(root) && root in Ids(catalog)
  }

  /** A rank that falls along every link. */
  ghost predicate Ranks(catalog: seq<Problem>, rank: map<string, int>) {
    forall p, root :: p in catalog && LinksTo(catalog, p, root) ==>
      root in rank && p.externalId in rank && rank[root] < rank[p.externalId]
  }

  predicate Distinct(problems: seq<Problem>) {
    forall i, j :: 0 <= i < j < |problems| ==> problems[i].externalId != problems[j].externalId
  }

  /** Every problem comes after the root it names. */
  ghost predicate RootsFirst(catalog: seq<Problem>, ordered: seq<Problem>) {
    forall i, root :: 0 <= i < |ordered| && LinksTo(catalog, ordered[i], root) ==> root in Ids(ordered[..i])
  }

  lemma AppendKeepsOrder(catalog: seq<Problem>, ordered: seq<Problem>, p: Problem)
    requires RootsFirst(catalog, ordered)
    requires forall root :: LinksTo(catalog, p, root) ==> root in Ids(ordered)
    ensures RootsFirst(catalog, ordered + [p])
  {
    var longer := ordered + [p];
    forall i, root | 0 <= i < |longer| && LinksTo(catalog, longer[i], root)
      ensures root in Ids(longer[..i])
    {
      if i < |ordered| {
        assert longer[..i] == ordered[..i];
      } else {
        assert longer[..i] == ordered;
      }
    }
  }

  class Emitter {
    const catalog: seq<Problem>
    const byId: map<string, Problem>
    var ordered: seq<Problem>
    var emitted: set<string>
    var guard: set<string>

    constructor (catalog: seq<Problem>)
      ensures this.catalog == catalog && Valid() && ordered == [] && guard == {}
    {
      this.catalog := catalog;
      byId := ById(catalog);
      ordered, emitted, guard := [], {}, {};
    }

    ghost predicate Valid()
      reads this
    {
      && byId == ById(catalog)
      && emitted == Ids(ordered) && Distinct(ordered)
      && forall p :: p in ordered ==> p in catalog
    }

    /** Everything on the way here is ranked above this problem. */
    ghost predicate Above(rank: map<string, int>, p: Problem)
      reads this
    {
      forall g :: g in guard ==> g in rank && p.externalId in rank && rank[p.externalId] < rank[g]
    }

    /**
     What an acyclic catalog adds to the invariant: the roots so far are first, and `p` is below what is
     in progress.
    */
    ghost predicate OnCourse(rank: map<string, int>, p: Problem)
      reads this
    {
      Ranks(catalog, rank) && RootsFirst(catalog, ordered) && Above(rank, p)
    }

    /** emit: the root first, unless it is done or being worked on; then the problem itself. */
    method Emit(p: Problem, ghost rank: map<string, int>)
      requires Valid() && p in catalog && guard <= byId.Keys
      modifies this
      ensures Valid() && guard <= byId.Keys
      ensures old(emitted) <= emitted
      ensures p.externalId in emitted || p.externalId in old(guard)
      ensures old(OnCourse(rank, p)) ==> RootsFirst(catalog, ordered) && p.externalId in emitted
      decreases byId.Keys - guard
    {
      hide Ranks, RootsFirst, Ids, Distinct;
      if p.externalId in emitted || p.externalId in guard {
        return;
      }
      ghost var onCourse := OnCourse(rank, p);
      MemberId(catalog, p);
      guard := guard + {p.externalId};
      if p.mirrorOf.Some? && p.mirrorOf.value in byId {
        var parent := byId[p.mirrorOf.value];
        if onCourse { LinkFalls(catalog, rank, p, parent.externalId); }
        if parent.externalId !in emitted {
          assert onCourse ==> OnCourse(rank, parent);
          Emit(parent, rank);
        }
      }
      if p.externalId !in emitted {
        Push(p);
        if onCourse { AppendKeepsOrder(catalog, ordered[..|ordered| - 1], p); }
      }
    }

    method Push(p: Problem)
      requires Valid() && p in catalog && p.externalId !in emitted
      modifies this`emitted, this`ordered
      ensures Valid() && emitted == old(emitted) + {p.externalId} && ordered == old(ordered) + [p]
      ensures ordered[..|ordered| - 1] == old(ordered)
    {
      emitted := emitted + {p.externalId};
      ordered := ordered + [p];
    }
  }

  lemma MemberId(catalog: seq<Problem>, p: Problem)
    requires p in catalog
    ensures p.externalId in Ids(catalog)
  {
  }

  lemma LinkFalls(catalog: seq<Problem>, rank: map<string, int>, p: Problem, root: string)
    requires Ranks(catalog, rank) && p in catalog && LinksTo(catalog, p, root)
    ensures root in rank && p.externalId in rank && rank[root] < rank[p.externalId]
  {
  }

  // ---------------------------------------------------------------- cycles

  /** One link of the catalog. */
  ghost predicate Link(catalog: seq<Problem>, id: string, root: string) {
    exists p :: p in catalog && p.externalId == id && LinksTo(catalog, p, root)
  }

  /** Each id links to the next. */
  ghost predicate Path(catalog: seq<Problem>, ids: seq<string>) {
    forall i :: 0 <= i < |ids| - 1 ==> Link(catalog, ids[i], ids[i + 1])
  }

  ghost predicate Leads(catalog: seq<Problem>, id: string, root: string) {
    exists ids :: |ids| >= 2 && ids[0] == id && ids[|ids| - 1] == root && Path(catalog, ids)
  }

  /** Following links from some problem leads back to it. */
  ghost predicate Cyclic(catalog: seq<Problem>) {
    exists id :: Leads(catalog, id, id)
  }

  lemma {:induction false} RankFallsAlong(catalog: seq<Problem>, rank: map<string, int>, ids: seq<string>)
    requires Ranks(catalog, rank) && |ids| >= 2 && Path(catalog, ids)
    ensures ids[0] in rank && ids[|ids| - 1] in rank && rank[ids[|ids| - 1]] < rank[ids[0]]
    decreases |ids|
  {
    hide LinksTo;
    assert Link(catalog, ids[0], ids[1]);
    var p :| p in catalog && p.externalId == ids[0] && LinksTo(catalog, p, ids[1]);
    if |ids| > 2 {
      var rest := ids[1..];
      forall i | 0 <= i < |rest| - 1
        ensures Link(catalog, rest[i], rest[i + 1])
      {
        assert Link(catalog, ids[i + 1], ids[i + 2]);
      }
      RankFallsAlong(catalog, rank, rest);
    }
  }

  lemma LinkLeads(catalog: seq<Problem>, id: string, root: string)
    requires Link(catalog, id, root)
    ensures Leads(catalog, id, root)
    ensures forall x :: Leads(catalog, root, x) ==> Leads(catalog, id, x)
  {
    assert Path(catalog, [id, root]);
    assert [id, root][0] == id && [id, root][|[id, root]| - 1] == root;
    forall x | Leads(catalog, root, x)
      ensures Leads(catalog, id, x)
    {
      var ids :| |ids| >= 2 && ids[0] == root && ids[|ids| - 1] == x && Path(catalog, ids);
      var longer := [id] + ids;
      forall i | 0 <= i < |longer| - 1
        ensures Link(catalog, longer[i], longer[i + 1])
      {
        if i > 0 { assert Link(catalog, ids[i - 1], ids[i]); }
      }
      assert longer[0] == id && longer[|longer| - 1] == x;
    }
  }

  /** The catalog's ids that following links from this one can come to. */
  ghost function Roots(catalog: seq<Problem>, id: string): set<string> {
    set x | x in Ids(catalog) && Leads(catalog, id, x)
  }

  lemma {:induction false} SmallerSet(a: set<string>, b: set<string>)
    requires a < b
    ensures |a| < |b|
    decreases b
  {
    var x :| x in b && x !in a;
    assert b == (b - {x}) + {x};
    if a != b - {x} {
      SmallerSet(a, b - {x});
    }
  }

  /** Without cycles, how much can be come to is a rank. */
  lemma AcyclicIsRanked(catalog: seq<Problem>) returns (rank: map<string, int>)
    requires !Cyclic(catalog)
    ensures Ranks(catalog, rank)
  {
    rank := map id | id in Ids(catalog) :: |Roots(catalog, id)|;
    forall p, root | p in catalog && LinksTo(catalog, p, root)
      ensures root in rank && p.externalId in rank && rank[root] < rank[p.externalId]
    {
      assert Link(catalog, p.externalId, root);
      LinkLeads(catalog, p.externalId, root);
      assert root in Roots(catalog, p.externalId) && root !in Roots(catalog, root);
      SmallerSet(Roots(catalog, root), Roots(catalog, p.externalId));
    }
  }

  /** There is a rank exactly when the links form no cycle. */
  lemma RankedExactly(catalog: seq<Problem>)
    ensures (exists rank :: Ranks(catalog, rank)) <==> !Cyclic(catalog)
  {
    hide Ranks;
    if rank :| Ranks(catalog, rank) {
      if id :| Leads(catalog, id, id) {
        var ids :| |ids| >= 2 && ids[0] == id && ids[|ids| - 1] == id && Path(catalog, ids);
        RankFallsAlong(catalog, rank, ids);
      }
    }
    if !Cyclic(catalog) {
      var rank := AcyclicIsRanked(catalog);
    }
  }

  // ---------------------------------------------------------------- roots first, exactly when acyclic

  function Positions(ordered: seq<Problem>): map<string, int>
    requires Distinct(ordered)
  {
    map i | 0 <= i < |ordered| :: ordered[i].externalId := i
  }

  /** For a catalog without repeated ids, an order with all roots first exists only if the links form no cycle. */
  lemma RootsFirstMeansAcyclic(catalog: seq<Problem>, ordered: seq<Problem>)
    requires Distinct(catalog) && Distinct(ordered) && Ids(ordered) == Ids(catalog)
    requires (forall p :: p in ordered ==> p in catalog) && RootsFirst(catalog, ordered)
    ensures Ranks(catalog, Positions(ordered)) && !Cyclic(catalog)
  {
    hide Cyclic;
    var rank := Positions(ordered);
    forall p, root | p in catalog && LinksTo(catalog, p, root)
      ensures root in rank && p.externalId in rank && rank[root] < rank[p.externalId]
    {
      assert p.externalId in Ids(ordered);
      var i :| 0 <= i < |ordered| && ordered[i].externalId == p.externalId;
      assert root in Ids(ordered[..i]);
      var q :| q in ordered[..i] && q.externalId == root;
      var j :| 0 <= j < i && ordered[j] == q;
      assert rank[ordered[j].externalId] == j && rank[ordered[i].externalId] == i;
    }
    RankedExactly(catalog);
  }

  // ---------------------------------------------------------------- the whole catalog

  /** The upsert order of a whole catalog, cyclic links included. */
  method OrderProblems(catalog: seq<Problem>) returns (ordered: seq<Problem>)
    ensures Distinct(ordered) && Ids(ordered) == Ids(catalog)
    ensures forall p :: p in ordered ==> p in catalog
    ensures !Cyclic(catalog) ==> RootsFirst(catalog, ordered)
    ensures Distinct(catalog) && RootsFirst(catalog, ordered) ==> !Cyclic(catalog)
  {
    hide Ranks, RootsFirst, Distinct, Ids, Cyclic;
    RankedExactly(catalog);
    ghost var rank: map<string, int> :| !Cyclic(catalog) ==> Ranks(catalog, rank);
    var emitter := new Emitter(catalog);
    NothingOutOfOrder(catalog);
    for i := 0 to |catalog|
      invariant fresh(emitter) && emitter.catalog == catalog && emitter.Valid()
      invariant forall j :: 0 <= j < i ==> catalog[j].externalId in emitter.emitted
      invariant Ranks(catalog, rank) ==> RootsFirst(catalog, emitter.ordered)
    {
      emitter.guard := {};
      emitter.Emit(catalog[i], rank);
    }
    ordered := emitter.ordered;
    AllEmitted(catalog, ordered);
    if Distinct(catalog) && RootsFirst(catalog, ordered) { RootsFirstMeansAcyclic(catalog, ordered); }
  }

  lemma NothingOutOfOrder(catalog: seq<Problem>)
    ensures RootsFirst(catalog, [])
  {
  }

  lemma AllEmitted(catalog: seq<Problem>, ordered: seq<Problem>)
    requires forall p :: p in ordered ==> p in catalog
    requires forall j :: 0 <= j < |catalog| ==> catalog[j].externalId in Ids(ordered)
    ensures Ids(ordered) == Ids(catalog)
  {
  }
}
