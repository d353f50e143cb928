/** The backup check: nodes, links and blobs are matched as they are found, in whatever
    order the crawlers report them. */
module Backup {

  datatype Inconsistency = BlobMissing | BlobOrphaned | NodeMissing | MetadataMissing | SymlinkMissing | FilesMissing
    | MalformedFile

  datatype Event =
    | NodeData(node: string, blob: string, needsLink: bool, found: seq<Inconsistency>)
    | LinkData(link: string, node: string)
    | BlobData(blob: string)

  type Findings = map<string, seq<Inconsistency>>

  datatype Tables = Tables(nodes: Findings, linked: Findings, references: Findings, blobs: Findings)

  const EMPTY: Tables := Tables(map[], map[], map[], map[])

  // ------------------------------------------------------------------ one event

  function Without(m: Findings, k: string): Findings {
    if k in m && m[k] == [] then m - {k} else m
  }

  function SeeNode(t: Tables, e: Event): Tables
    requires e.NodeData?
  {
    var nodes := if e.found == [] then t.nodes
                 else t.nodes[e.node := (if e.node in t.nodes then t.nodes[e.node] else []) + e.found];
    var t1 := t.(nodes := if e.node !in t.linked && e.needsLink && e.node !in nodes then nodes[e.node := []] else nodes,
                 linked := Without(t.linked, e.node));
    if e.blob == "" then t1
    else if e.blob in t.blobs then t1.(blobs := Without(t.blobs, e.blob))
    else t1.(references := t.references[e.blob := []])
  }

  function See(t: Tables, e: Event): Tables {
    match e
    case NodeData(_, _, _, _) => SeeNode(t, e)
    case LinkData(_, n) =>
      if n in t.nodes then t.(nodes := Without(t.nodes, n)) else t.(linked := t.linked[n := []])
    case BlobData(b) =>
      if b in t.references then t.(references := Without(t.references, b)) else t.(blobs := t.blobs[b := []])
  }

  function SeeAll(events: seq<Event>): Tables {
    if events == [] then EMPTY else See(SeeAll(events[..|events| - 1]), events[|events| - 1])
  }

  function Marked(m: Findings, mark: Inconsistency): Findings {
    map k | k in m :: m[k] + [mark]
  }

  /** What is reported at the end. */
  function Report(t: Tables): Tables {
    Tables(map k | k in t.nodes :: if t.nodes[k] == [] then [SymlinkMissing] else t.nodes[k],
           Marked(t.linked, NodeMissing), Marked(t.references, BlobMissing), Marked(t.blobs, BlobOrphaned))
  }

  // ------------------------------------------------------------------ the loops

  class Consistency {
    var nodes: Findings
    var linked: Findings
    var references: Findings
    var blobs: Findings

    constructor ()
      ensures Now() == EMPTY
    {
      nodes, linked, references, blobs := map[], map[], map[], map[];
    }

    function Now(): Tables
      reads this
    {
      Tables(nodes, linked, references, blobs)
    }

    /** One event. */
    method Take(e: Event)
      modifies this
      ensures Now() == See(old(Now()), e)
    {
      match e
      case NodeData(n, b, needsLink, found) =>
        if |found| != 0 {
          nodes := nodes[n := (if n in nodes then nodes[n] else []) + found];
        }
        if n in linked {
          linked := DeleteInconsistency(linked, n);
        } else if needsLink && n !in nodes {
          nodes := nodes[n := []];
        }
        if b != "" {
          if b in blobs { blobs := DeleteInconsistency(blobs, b); } else { references := references[b := []]; }
        }
      case LinkData(_, n) =>
        if n in nodes { nodes := DeleteInconsistency(nodes, n); } else { linked := linked[n := []]; }
      case BlobData(b) =>
        if b in references { references := DeleteInconsistency(references, b); } else { blobs := blobs[b := []]; }
    }

    method GatherData(events: seq<Event>)
      requires Now() == EMPTY
      modifies this
      ensures Now() == Report(SeeAll(events))
    {
      hide See;
      for i := 0 to |events|
        invariant Now() == SeeAll(events[..i])
      {
        assert events[..i + 1][..i] == events[..i];
        Take(events[i]);
      }
      assert events[..|events|] == events;
      nodes := MarkEmpty(nodes);
      linked := Mark(linked, NodeMissing);
      blobs := Mark(blobs, BlobOrphaned);
      references := Mark(references, BlobMissing);
    }
  }

  method DeleteInconsistency(m: Findings, k: string) returns (r: Findings)
    ensures r == Without(m, k)
  {
    r := m;
    if k in m && |m[k]| == 0 { r := m - {k}; }
  }

  method MarkEmpty(m: Findings) returns (r: Findings)
    ensures r == map k | k in m :: if m[k] == [] then [SymlinkMissing] else m[k]
  {
    r := m;
    var todo := m.Keys;
    while todo != {}
      invariant todo <= m.Keys
      invariant r.Keys == m.Keys && forall k :: k in m ==>
                r[k] == if m[k] == [] && k !in todo then [SymlinkMissing] else m[k]
    {
      var k :| k in todo;
      assert r[k] == m[k];
      if |r[k]| == 0 {
        assert r[k] + [SymlinkMissing] == [SymlinkMissing];
        r := r[k := r[k] + [SymlinkMissing]];
      }
      todo := todo - {k};
    }
  }

  method Mark(m: Findings, mark: Inconsistency) returns (r: Findings)
    ensures r == Marked(m, mark)
  {
    r := m;
    var todo := m.Keys;
    while todo != {}
      invariant todo <= m.Keys
      invariant r.Keys == m.Keys && forall k :: k in m ==> r[k] == if k in todo then m[k] else m[k] + [mark]
    {
      var k :| k in todo;
      r := r[k := r[k] + [mark]];
      todo := todo - {k};
    }
  }

  // ------------------------------------------------------------------ what the events mean

  /** The two events are about the same node, the same link target, the same reference
      or the same blob. */
  predicate Clash(a: Event, b: Event) {
    match (a, b)
    case (NodeData(n, x, _, _), NodeData(m, y, _, _)) => n == m || (x == y && x != "")
    case (LinkData(_, n), LinkData(_, m)) => n == m
    case (BlobData(x), BlobData(y)) => x == y
    case _ => false
  }

  /** At most one node event and one link per node path, and one reference and one blob
      event per blob. */
  ghost predicate Unique(all: multiset<Event>) {
    && (forall e :: e in all ==> all[e] == 1)
    && (forall e, f :: e in all && f in all && Clash(e, f) ==> e == f)
  }

  ghost predicate HasNode(p: seq<Event>, n: string) {
    exists e :: e in p && e.NodeData? && e.node == n
  }

  ghost predicate HasLink(p: seq<Event>, n: string) {
    exists e :: e in p && e.LinkData? && e.node == n
  }

  ghost predicate HasReference(p: seq<Event>, b: string) {
    b != "" && exists e :: e in p && e.NodeData? && e.blob == b
  }

  /** A node that needs no link and has nothing wrong with it. */
  predicate Plain(e: Event) {
    e.NodeData? && !e.needsLink && e.found == []
  }

  /** A plain node was reported before a link to it. */
  ghost predicate Late(p: seq<Event>, n: string) {
    exists i, j :: 0 <= i < j < |p| && Plain(p[i]) && p[i].node == n && p[j].LinkData? && p[j].node == n
  }

  /** The node has inconsistencies of its own, or no link. */
  ghost predicate Suspect(p: seq<Event>, e: Event) {
    e.NodeData? && (e.found != [] || (e.needsLink && !HasLink(p, e.node)))
  }

  /** The tables as plain set differences of what has been seen. */
  ghost predicate NodesMean(m: Findings, p: seq<Event>) {
    && (forall n :: n in m <==> exists e :: e in p && e.NodeData? && e.node == n && Suspect(p, e))
    && (forall e :: e in p && e.NodeData? && e.node in m ==> m[e.node] == e.found)
  }

  ghost predicate LinkedMean(m: Findings, p: seq<Event>) {
    forall n :: (n in m <==> HasLink(p, n) && (!HasNode(p, n) || Late(p, n))) && (n in m ==> m[n] == [])
  }

  ghost predicate ReferencesMean(m: Findings, p: seq<Event>) {
    forall b :: (b in m <==> HasReference(p, b) && BlobData(b) !in p) && (b in m ==> m[b] == [])
  }

  ghost predicate BlobsMean(m: Findings, p: seq<Event>) {
    forall b :: (b in m <==> BlobData(b) in p && !HasReference(p, b)) && (b in m ==> m[b] == [])
  }

  /** `e` is new: it is about nothing that `p` is about. */
  ghost predicate New(p: seq<Event>, e: Event) {
    forall f :: f in p ==> f != e && !Clash(f, e)
  }

  lemma More(p: seq<Event>, e: Event)
    ensures forall x :: x in p + [e] <==> x in p || x == e
  {
  }

  lemma HasMore(p: seq<Event>, e: Event, k: string)
    ensures HasNode(p + [e], k) <==> HasNode(p, k) || (e.NodeData? && e.node == k)
    ensures HasLink(p + [e], k) <==> HasLink(p, k) || (e.LinkData? && e.node == k)
    ensures HasReference(p + [e], k) <==> HasReference(p, k) || (k != "" && e.NodeData? && e.blob == k)
  {
    More(p, e);
    if HasNode(p, k) { var f :| f in p && f.NodeData? && f.node == k; assert f in p + [e]; }
    if HasLink(p, k) { var f :| f in p && f.LinkData? && f.node == k; assert f in p + [e]; }
    if HasReference(p, k) { var f :| f in p && f.NodeData? && f.blob == k; assert f in p + [e]; }
    assert e in p + [e];
  }

  lemma LateMore(p: seq<Event>, e: Event, n: string)
    ensures Late(p + [e], n) <==>
            Late(p, n) || (e.LinkData? && e.node == n && exists f :: f in p && Plain(f) && f.node == n)
  {
    var q := p + [e];
    if Late(p, n) {
      var i, j :| 0 <= i < j < |p| && Plain(p[i]) && p[i].node == n && p[j].LinkData? && p[j].node == n;
      assert Plain(q[i]) && q[j].LinkData?;
    }
    if e.LinkData? && e.node == n && exists f :: f in p && Plain(f) && f.node == n {
      var f :| f in p && Plain(f) && f.node == n;
      var i :| 0 <= i < |p| && p[i] == f;
      assert Plain(q[i]) && q[|p|].LinkData?;
    }
    if Late(q, n) {
      var i, j :| 0 <= i < j < |q| && Plain(q[i]) && q[i].node == n && q[j].LinkData? && q[j].node == n;
      assert q[i] == p[i] && p[i] in p;
      if j < |p| { assert q[j] == p[j]; }
    }
  }

  lemma LateHas(p: seq<Event>, n: string)
    requires Late(p, n)
    ensures HasNode(p, n) && HasLink(p, n)
  {
    var i, j :| 0 <= i < j < |p| && Plain(p[i]) && p[i].node == n && p[j].LinkData? && p[j].node == n;
    assert p[i] in p && p[j] in p;
  }

  // ------------------------------------------------------------------ each event keeps the meaning

  ghost predicate OneEach(p: seq<Event>) {
    forall e, f :: e in p && f in p && Clash(e, f) ==> e == f
  }

  lemma ReferencesStep(t: Tables, p: seq<Event>, e: Event)
    requires ReferencesMean(t.references, p) && BlobsMean(t.blobs, p) && New(p, e)
    ensures ReferencesMean(See(t, e).references, p + [e])
  {
    var r := See(t, e).references;
    forall b ensures (b in r <==> HasReference(p + [e], b) && BlobData(b) !in p + [e]) && (b in r ==> r[b] == []) {
      More(p, e);
      HasMore(p, e, b);
    }
  }

  lemma BlobsStep(t: Tables, p: seq<Event>, e: Event)
    requires ReferencesMean(t.references, p) && BlobsMean(t.blobs, p) && New(p, e)
    ensures BlobsMean(See(t, e).blobs, p + [e])
  {
    var r := See(t, e).blobs;
    forall b ensures (b in r <==> BlobData(b) in p + [e] && !HasReference(p + [e], b)) && (b in r ==> r[b] == []) {
      More(p, e);
      HasMore(p, e, b);
    }
  }

  /** Whether a node is in the table when its link comes. */
  lemma WaitsForLink(m: Findings, p: seq<Event>, n: string)
    requires NodesMean(m, p) && OneEach(p) && !HasLink(p, n)
    ensures HasNode(p, n) ==> (n in m <==> !exists f :: f in p && Plain(f) && f.node == n)
    ensures !HasNode(p, n) ==> n !in m
  {
    if HasNode(p, n) {
      var e :| e in p && e.NodeData? && e.node == n;
      assert forall f :: f in p && f.NodeData? && f.node == n ==> Clash(e, f);
      if !Plain(e) { assert Suspect(p, e); }
    }
  }

  lemma LinkStep(t: Tables, p: seq<Event>, e: Event)
    requires NodesMean(t.nodes, p) && LinkedMean(t.linked, p) && New(p, e) && OneEach(p) && e.LinkData?
    ensures LinkedMean(See(t, e).linked, p + [e])
  {
    hide NodesMean, Late, HasNode, HasLink;
    var r := See(t, e).linked;
    NoLinkYet(p, e);
    WaitsForLink(t.nodes, p, e.node);
    forall n
      ensures (n in r <==> HasLink(p + [e], n) && (!HasNode(p + [e], n) || Late(p + [e], n)))
      ensures (n in r ==> r[n] == [])
    {
      HasMore(p, e, n);
      LateMore(p, e, n);
      if Late(p, n) { LateHas(p, n); }
      PlainHas(p, n);
    }
  }

  lemma NoLinkYet(p: seq<Event>, e: Event)
    requires New(p, e) && e.LinkData?
    ensures !HasLink(p, e.node)
  {
  }

  lemma PlainHas(p: seq<Event>, n: string)
    ensures (exists f :: f in p && Plain(f) && f.node == n) ==> HasNode(p, n)
  {
  }

  lemma NodeUnlinks(t: Tables, p: seq<Event>, e: Event)
    requires LinkedMean(t.linked, p) && New(p, e) && !e.LinkData?
    ensures LinkedMean(See(t, e).linked, p + [e])
  {
    var r := See(t, e).linked;
    forall n
      ensures (n in r <==> HasLink(p + [e], n) && (!HasNode(p + [e], n) || Late(p + [e], n)))
      ensures (n in r ==> r[n] == [])
    {
      HasMore(p, e, n);
      LateMore(p, e, n);
      if Late(p, n) { LateHas(p, n); }
    }
  }

  // ------------------------------------------------------------------ nodes

  lemma SuspectMore(p: seq<Event>, e: Event, f: Event)
    requires f.NodeData?
    ensures Suspect(p + [e], f) <==> Suspect(p, f) && !(f.found == [] && e.LinkData? && e.node == f.node)
  {
    HasMore(p, e, f.node);
  }

  lemma NodesStepLink(t: Tables, p: seq<Event>, e: Event)
    requires NodesMean(t.nodes, p) && New(p, e) && OneEach(p) && e.LinkData?
    ensures NodesMean(See(t, e).nodes, p + [e])
  {
    hide Suspect, HasLink;
    var m, q := See(t, e).nodes, p + [e];
    More(p, e);
    forall n ensures n in m <==> exists f :: f in q && f.NodeData? && f.node == n && Suspect(q, f) {
      if n in m {
        var f :| f in p && f.NodeData? && f.node == n && Suspect(p, f);
        SuspectMore(p, e, f);
        assert f in q && (n == e.node ==> t.nodes[n] == f.found);
      }
      if exists f :: f in q && f.NodeData? && f.node == n && Suspect(q, f) {
        var f :| f in q && f.NodeData? && f.node == n && Suspect(q, f);
        SuspectMore(p, e, f);
      }
    }
  }

  /** A new node goes into the table exactly if it is suspect. */
  lemma NodeRow(t: Tables, p: seq<Event>, e: Event)
    requires NodesMean(t.nodes, p) && LinkedMean(t.linked, p) && New(p, e) && e.NodeData?
    ensures See(t, e).nodes == if Suspect(p + [e], e) then t.nodes[e.node := e.found] else t.nodes
  {
    hide HasLink, NodesMean, LinkedMean, New;
    NotSeen(t.nodes, p, e);
    HasMore(p, e, e.node);
    LinkWaits(t.linked, p, e);
    assert [] + e.found == e.found;
  }

  lemma LinkWaits(m: Findings, p: seq<Event>, e: Event)
    requires LinkedMean(m, p) && New(p, e) && e.NodeData?
    ensures e.node in m <==> HasLink(p, e.node)
  {
    if Late(p, e.node) { LateHas(p, e.node); }
  }

  lemma NodesStepNode(t: Tables, p: seq<Event>, e: Event)
    requires NodesMean(t.nodes, p) && LinkedMean(t.linked, p) && New(p, e) && e.NodeData?
    ensures NodesMean(See(t, e).nodes, p + [e])
  {
    hide See, LinkedMean, Suspect;
    var m, q := See(t, e).nodes, p + [e];
    NodeRow(t, p, e);
    NotSeen(t.nodes, p, e);
    More(p, e);
    forall n ensures n in m <==> exists f :: f in q && f.NodeData? && f.node == n && Suspect(q, f) {
      if n in m {
        if n == e.node {
          assert e in q && Suspect(q, e);
        } else {
          var f :| f in p && f.NodeData? && f.node == n && Suspect(p, f);
          SuspectMore(p, e, f);
          assert f in q;
        }
      }
      if exists f :: f in q && f.NodeData? && f.node == n && Suspect(q, f) {
        var f :| f in q && f.NodeData? && f.node == n && Suspect(q, f);
        SuspectMore(p, e, f);
      }
    }
  }

  lemma NotSeen(m: Findings, p: seq<Event>, e: Event)
    requires NodesMean(m, p) && New(p, e) && e.NodeData?
    ensures e.node !in m && !HasNode(p, e.node)
  {
  }

  lemma NodesStepBlob(t: Tables, p: seq<Event>, e: Event)
    requires NodesMean(t.nodes, p) && e.BlobData?
    ensures NodesMean(See(t, e).nodes, p + [e])
  {
    hide Suspect;
    var m, q := See(t, e).nodes, p + [e];
    More(p, e);
    forall n ensures n in m <==> exists f :: f in q && f.NodeData? && f.node == n && Suspect(q, f) {
      if n in m {
        var f :| f in p && f.NodeData? && f.node == n && Suspect(p, f);
        SuspectMore(p, e, f);
        assert f in q;
      }
      if exists f :: f in q && f.NodeData? && f.node == n && Suspect(q, f) {
        var f :| f in q && f.NodeData? && f.node == n && Suspect(q, f);
        SuspectMore(p, e, f);
      }
    }
  }

  // ------------------------------------------------------------------ all events

  ghost predicate Mean(t: Tables, p: seq<Event>) {
    NodesMean(t.nodes, p) && LinkedMean(t.linked, p) && ReferencesMean(t.references, p) && BlobsMean(t.blobs, p)
  }

  lemma SeeMeans(t: Tables, p: seq<Event>, e: Event)
    requires Mean(t, p) && New(p, e) && OneEach(p)
    ensures Mean(See(t, e), p + [e])
  {
    hide NodesMean, LinkedMean, ReferencesMean, BlobsMean, See, New, OneEach;
    ReferencesStep(t, p, e);
    BlobsStep(t, p, e);
    match e
    case NodeData(_, _, _, _) =>
      NodesStepNode(t, p, e);
      NodeUnlinks(t, p, e);
    case LinkData(_, _) =>
      NodesStepLink(t, p, e);
      LinkStep(t, p, e);
    case BlobData(_) =>
      NodesStepBlob(t, p, e);
      NodeUnlinks(t, p, e);
  }

  lemma UniqueFront(p: seq<Event>, e: Event)
    requires Unique(multiset(p + [e]))
    ensures Unique(multiset(p)) && New(p, e) && OneEach(p)
  {
    assert multiset(p + [e]) == multiset(p) + multiset{e};
    forall f | f in p ensures f in multiset(p) && f in multiset(p + [e]) {}
    assert multiset(p + [e])[e] == multiset(p)[e] + 1;
    forall f | f in multiset(p) ensures multiset(p)[f] == 1 {
      assert multiset(p + [e])[f] == 1;
    }
  }

  /** Online matching computes plain set differences, whatever the order of events. */
  lemma {:induction false} SeeAllMeans(p: seq<Event>)
    requires Unique(multiset(p))
    ensures Mean(SeeAll(p), p)
    decreases |p|
  {
    hide See;
    if p != [] {
      var q, e := p[..|p| - 1], p[|p| - 1];
      assert p == q + [e];
      UniqueFront(q, e);
      SeeAllMeans(q);
      SeeMeans(SeeAll(q), q, e);
    }
  }

  /** Links lead only to nodes that need one, that have inconsistencies of their own, or
      that do not exist. */
  ghost predicate LinksNeeded(all: multiset<Event>) {
    forall e, l :: e in all && l in all && Plain(e) && l.LinkData? ==> e.node != l.node
  }

  lemma NeverLate(p: seq<Event>, n: string)
    requires LinksNeeded(multiset(p))
    ensures !Late(p, n)
  {
  }

  lemma SameHas(p: seq<Event>, q: seq<Event>, k: string)
    requires multiset(p) == multiset(q)
    ensures HasNode(p, k) <==> HasNode(q, k)
    ensures HasLink(p, k) <==> HasLink(q, k)
    ensures HasReference(p, k) <==> HasReference(q, k)
    ensures BlobData(k) in p <==> BlobData(k) in q
  {
    assert forall e :: e in p <==> e in multiset(p);
    assert forall e :: e in q <==> e in multiset(q);
  }

  lemma SameNodes(p: seq<Event>, q: seq<Event>, m: Findings, k: Findings)
    requires multiset(p) == multiset(q) && NodesMean(m, p) && NodesMean(k, q)
    ensures m == k
  {
    hide HasLink;
    assert forall e :: e in p <==> e in multiset(p);
    assert forall e :: e in q <==> e in multiset(q);
    forall e ensures Suspect(p, e) <==> Suspect(q, e) {
      if e.NodeData? { SameHas(p, q, e.node); }
    }
  }

  lemma SameLinked(p: seq<Event>, q: seq<Event>, m: Findings, k: Findings)
    requires multiset(p) == multiset(q) && LinkedMean(m, p) && LinkedMean(k, q) && LinksNeeded(multiset(p))
    ensures m == k
  {
    hide Late, HasNode, HasLink;
    forall n ensures (n in m <==> n in k) && (n in m ==> m[n] == k[n]) {
      SameHas(p, q, n);
      NeverLate(p, n);
      NeverLate(q, n);
    }
  }

  lemma SameBlobs(p: seq<Event>, q: seq<Event>, a: Tables, b: Tables)
    requires multiset(p) == multiset(q)
    requires ReferencesMean(a.references, p) && ReferencesMean(b.references, q) && BlobsMean(a.blobs, p)
    requires BlobsMean(b.blobs, q)
    ensures a.references == b.references && a.blobs == b.blobs
  {
    hide HasReference;
    forall k ensures (HasReference(p, k) <==> HasReference(q, k)) && (BlobData(k) in p <==> BlobData(k) in q) {
      SameHas(p, q, k);
    }
  }

  /** Every order of the same events gives the same reports. */
  lemma AnyOrder(p: seq<Event>, q: seq<Event>)
    requires multiset(p) == multiset(q) && Unique(multiset(p)) && LinksNeeded(multiset(p))
    ensures Report(SeeAll(p)) == Report(SeeAll(q))
  {
    hide NodesMean, LinkedMean, ReferencesMean, BlobsMean, SeeAll;
    SeeAllMeans(p);
    SeeAllMeans(q);
    SameNodes(p, q, SeeAll(p).nodes, SeeAll(q).nodes);
    SameLinked(p, q, SeeAll(p).linked, SeeAll(q).linked);
    SameBlobs(p, q, SeeAll(p), SeeAll(q));
  }

  /** Some order of a multiset of events. */
  lemma {:induction false} SomeOrder(all: multiset<Event>) returns (p: seq<Event>)
    ensures multiset(p) == all
    decreases |all|
  {
    if all == multiset{} {
      p := [];
    } else {
      var e :| e in all;
      var rest := SomeOrder(all - multiset{e});
      p := [e] + rest;
      assert all == multiset{e} + (all - multiset{e});
    }
  }

  lemma LinkedFrom(p: seq<Event>, n: string)
    requires Unique(multiset(p)) && HasNode(p, n) && HasLink(p, n)
    ensures n in Report(SeeAll(p)).linked <==> Late(p, n)
  {
    hide Late, HasNode, HasLink, SeeAll, NodesMean, ReferencesMean, BlobsMean;
    SeeAllMeans(p);
  }

  /** A link to a plain node is reported as dangling when the node came first, and only
      then; so the order of events is visible exactly when there is such a link. */
  lemma OrderVisible(all: multiset<Event>) returns (p: seq<Event>, q: seq<Event>)
    requires Unique(all) && !LinksNeeded(all)
    ensures multiset(p) == multiset(q) == all && Report(SeeAll(p)) != Report(SeeAll(q))
  {
    hide SeeAll, Report, Unique, Late, HasNode, HasLink;
    var e, l :| e in all && l in all && Plain(e) && l.LinkData? && e.node == l.node;
    var rest := SomeOrder(all - multiset{e, l});
    TwoFirst(all, e, l, rest);
    p, q := [e, l] + rest, [l, e] + rest;
    Both(e, l, rest, e.node);
    LinkedFrom(p, e.node);
    LinkedFrom(q, e.node);
    LateBefore(e, l, rest);
    NotLate(e, l, rest);
  }

  lemma TwoFirst(all: multiset<Event>, e: Event, l: Event, rest: seq<Event>)
    requires e in all && l in all && e != l && multiset(rest) == all - multiset{e, l}
    ensures multiset([e, l] + rest) == all && multiset([l, e] + rest) == all
  {
    assert all == multiset{e, l} + (all - multiset{e, l});
    assert multiset([e, l]) == multiset{e, l} && multiset([l, e]) == multiset{e, l};
    assert multiset([e, l] + rest) == multiset([e, l]) + multiset(rest);
    assert multiset([l, e] + rest) == multiset([l, e]) + multiset(rest);
  }

  lemma Both(e: Event, l: Event, rest: seq<Event>, n: string)
    requires e.NodeData? && l.LinkData? && e.node == l.node == n
    ensures HasNode([e, l] + rest, n) && HasLink([e, l] + rest, n) && HasNode([l, e] + rest, n)
    ensures HasLink([l, e] + rest, n)
  {
    assert ([e, l] + rest)[0] == e && ([e, l] + rest)[1] == l;
    assert ([l, e] + rest)[0] == l && ([l, e] + rest)[1] == e;
  }

  lemma LateBefore(e: Event, l: Event, rest: seq<Event>)
    requires Plain(e) && l.LinkData? && e.node == l.node
    ensures Late([e, l] + rest, e.node)
  {
    var p := [e, l] + rest;
    assert Plain(p[0]) && p[1].LinkData?;
  }

  lemma NotLate(e: Event, l: Event, rest: seq<Event>)
    requires Plain(e) && l.LinkData? && e.node == l.node && Unique(multiset([l, e] + rest))
    ensures !Late([l, e] + rest, e.node)
  {
    var q := [l, e] + rest;
    forall j | 0 < j < |q| && q[j].LinkData? ensures q[j].node != e.node {
      OnlyOnce(q, 0, j);
    }
  }

  lemma OnlyOnce(q: seq<Event>, i: nat, j: nat)
    requires Unique(multiset(q)) && i < j < |q|
    ensures !Clash(q[i], q[j])
  {
    assert q == q[..j] + [q[j]] + q[j + 1..];
    assert multiset(q) == multiset(q[..j]) + multiset{q[j]} + multiset(q[j + 1..]);
    assert q[i] in q[..j] by { assert q[..j][i] == q[i]; }
    assert q[i] in multiset(q) && q[j] in multiset(q);
    assert multiset(q[..j])[q[i]] >= 1;
  }
}
