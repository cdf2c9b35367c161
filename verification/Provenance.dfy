/** Which messages contributed to a claims case, and how a repeated intake adds to them. */
module Provenance {
  import opened Wrappers

  type MessageId = nat    // a UUID

  datatype Contribution = Contribution(message: MessageId, body: string)

  const MAX_CONTRIBUTIONS := 1000

  /** No message is reported with two different contents. */
  predicate Agree(a: seq<Contribution>, b: seq<Contribution>) {
    forall i, k :: 0 <= i < |a| && 0 <= k < |b| && a[i].message == b[k].message ==> a[i] == b[k]
  }

  predicate DistinctMessages(s: seq<Contribution>) {
    forall i, k :: 0 <= i < k < |s| ==> s[i].message != s[k].message
  }

  /** dict[message] = contribution: a repeated message keeps its place and takes the new content. */
  function Upsert(s: seq<Contribution>, c: Contribution): seq<Contribution> {
    if s == [] then [c]
    else if s[0].message == c.message then [c] + s[1..]
    else [s[0]] + Upsert(s[1..], c)
  }

  /** The dictionary of a stored intake, in insertion order. */
  function Collected(s: seq<Contribution>): seq<Contribution> {
    if s == [] then [] else Upsert(Collected(s[..|s| - 1]), s[|s| - 1])
  }

  /** The messages of `later` not yet in `s`, in order of first appearance, appended. */
  function Merged(s: seq<Contribution>, later: seq<Contribution>): seq<Contribution> {
    if later == [] then s
    else
      var rest := Merged(s, later[..|later| - 1]);
      var c := later[|later| - 1];
      if c in rest then rest else rest + [c]
  }

  lemma {:induction false} MergedHolds(s: seq<Contribution>, later: seq<Contribution>)
    ensures s <= Merged(s, later)
    ensures forall c :: c in Merged(s, later) <==> c in s || c in later
  {
    if later != [] {
      MergedHolds(s, later[..|later| - 1]);
      assert later == later[..|later| - 1] + [later[|later| - 1]];
    }
  }

  /** Merging keeps one contribution per message when nothing disagrees. */
  lemma {:induction false} MergedIsDistinct(s: seq<Contribution>, later: seq<Contribution>)
    requires DistinctMessages(s) && Agree(s, later) && Agree(later, later)
    ensures DistinctMessages(Merged(s, later))
  {
    if later != [] {
      var init, c := later[..|later| - 1], later[|later| - 1];
      MergedIsDistinct(s, init);
      MergedHolds(s, init);
      var rest := Merged(s, init);
      forall i | 0 <= i < |rest| && rest[i].message == c.message ensures rest[i] == c {
        assert rest[i] in rest;
      }
    }
  }

  /** What the dictionary holds after `all` has been put into it. */
  predicate Indexes(known: map<MessageId, Contribution>, all: seq<Contribution>) {
    && (forall c :: c in all ==> c.message in known && known[c.message] == c)
    && (forall m :: m in known ==> known[m] in all && known[m].message == m)
  }

  lemma {:induction false} UpsertReplaces(s: seq<Contribution>, c: Contribution)
    requires DistinctMessages(s)
    ensures DistinctMessages(Upsert(s, c))
    ensures forall d :: d in Upsert(s, c) <==> d == c || (d in s && d.message != c.message)
  {
    if s != [] {
      assert s == [s[0]] + s[1..];
      if s[0].message != c.message {
        UpsertReplaces(s[1..], c);
        var rest := Upsert(s[1..], c);
        forall k | 0 <= k < |rest| ensures rest[k].message != s[0].message {
          assert rest[k] in rest;
        }
      }
    }
  }

  lemma {:induction false} CollectedIsDistinct(s: seq<Contribution>)
    ensures DistinctMessages(Collected(s))
  {
    if s != [] {
      CollectedIsDistinct(s[..|s| - 1]);
      UpsertReplaces(Collected(s[..|s| - 1]), s[|s| - 1]);
    }
  }

  lemma {:induction false} UpsertAppends(s: seq<Contribution>, c: Contribution)
    requires forall d :: d in s ==> d.message != c.message
    ensures Upsert(s, c) == s + [c]
  {
    if s != [] {
      UpsertAppends(s[1..], c);
      assert s[0] in s && s == [s[0]] + s[1..];
    }
  }

  lemma {:induction false} DistinctIsCollected(s: seq<Contribution>)
    requires DistinctMessages(s)
    ensures Collected(s) == s
  {
    if s != [] {
      DistinctIsCollected(s[..|s| - 1]);
      UpsertAppends(s[..|s| - 1], s[|s| - 1]);
    }
  }

  method Collect(stored: seq<Contribution>) returns (all: seq<Contribution>, known: map<MessageId, Contribution>)
    ensures all == Collected(stored) && DistinctMessages(all) && Indexes(known, all)
  {
    all, known := [], map[];
    var k := 0;
    while k < |stored|
      invariant k <= |stored| && all == Collected(stored[..k]) && DistinctMessages(all) && Indexes(known, all)
    {
      assert stored[..k + 1][..k] == stored[..k];
      UpsertReplaces(all, stored[k]);
      all := Upsert(all, stored[k]);
      known := known[stored[k].message := stored[k]];
      k := k + 1;
    }
    assert stored[..k] == stored;
  }

  lemma Disagreement(earlier: seq<Contribution>, later: seq<Contribution>, k: nat, d: Contribution)
    requires k < |later| && (d in earlier || d in later[..k]) && d != later[k] && d.message == later[k].message
    ensures !(Agree(earlier, later) && Agree(later, later))
  {
  }

  lemma AgreeSnoc(earlier: seq<Contribution>, later: seq<Contribution>, k: nat)
    requires k < |later| && Agree(earlier, later[..k]) && Agree(later[..k], later[..k])
    requires forall d :: (d in earlier || d in later[..k]) && d.message == later[k].message ==> d == later[k]
    ensures Agree(earlier, later[..k + 1]) && Agree(later[..k + 1], later[..k + 1])
  {
  }

  datatype Merging = Kept(messages: seq<Contribution>) | Conflict | TooMany

  /**
   merge_provenance: for claims, the stored contributions with the new messages added, refused on a
   conflict and when too many; for any other capability the new intake as it is.
   */
  function MergeSpec(claims: bool, stored: seq<Contribution>, later: seq<Contribution>): Merging {
    if !claims then Kept(later)
    else if !Agree(Collected(stored), later) || !Agree(later, later) then Conflict
    else if |Merged(Collected(stored), later)| > MAX_CONTRIBUTIONS then TooMany
    else Kept(Merged(Collected(stored), later))
  }

  /** A successful merge holds exactly the union, one contribution per message, the stored ones first. */
  lemma MergeKeepsAll(stored: seq<Contribution>, later: seq<Contribution>)
    requires MergeSpec(true, stored, later).Kept?
    ensures var messages := MergeSpec(true, stored, later).messages;
      && DistinctMessages(messages) && Collected(stored) <= messages && Collected(messages) == messages
      && (forall c :: c in messages <==> c in Collected(stored) || c in later)
  {
    CollectedIsDistinct(stored);
    MergedIsDistinct(Collected(stored), later);
    MergedHolds(Collected(stored), later);
    DistinctIsCollected(Merged(Collected(stored), later));
  }

  lemma MergedNext(s: seq<Contribution>, later: seq<Contribution>, k: nat)
    requires k < |later|
    ensures var rest := Merged(s, later[..k]);
      Merged(s, later[..k + 1]) == if later[k] in rest then rest else rest + [later[k]]
  {
    assert later[..k + 1][..k] == later[..k];
  }

  lemma IndexesSnoc(known: map<MessageId, Contribution>, all: seq<Contribution>, c: Contribution)
    requires Indexes(known, all) && c.message !in known
    ensures Indexes(known[c.message := c], all + [c])
  {
  }

  /** A message that the dictionary does not contradict contradicts nothing so far. */
  lemma NextAgrees(known: map<MessageId, Contribution>, earlier: seq<Contribution>, later: seq<Contribution>, k: nat)
    requires k < |later| && Indexes(known, Merged(earlier, later[..k]))
    requires Agree(earlier, later[..k]) && Agree(later[..k], later[..k])
    requires later[k].message in known ==> known[later[k].message] == later[k]
    ensures Agree(earlier, later[..k + 1]) && Agree(later[..k + 1], later[..k + 1])
  {
    MergedHolds(earlier, later[..k]);
    forall d | (d in earlier || d in later[..k]) && d.message == later[k].message ensures d == later[k] {
      assert d in Merged(earlier, later[..k]);
    }
    AgreeSnoc(earlier, later, k);
  }

  lemma NextDisagrees(known: map<MessageId, Contribution>, earlier: seq<Contribution>, later: seq<Contribution>, k: nat)
    requires k < |later| && Indexes(known, Merged(earlier, later[..k]))
    requires later[k].message in known && known[later[k].message] != later[k]
    ensures !(Agree(earlier, later) && Agree(later, later))
  {
    MergedHolds(earlier, later[..k]);
    Disagreement(earlier, later, k, known[later[k].message]);
  }

  lemma {:induction false} DistinctCount(s: seq<Contribution>)
    requires DistinctMessages(s)
    ensures |s| == |set c | c in s|
  {
    if s != [] {
      var rest, last := s[..|s| - 1], s[|s| - 1];
      DistinctCount(rest);
      assert last !in rest;
      assert (set c | c in s) == (set c | c in rest) + {last};
    }
  }

  /** Some message comes with two contents. */
  ghost predicate Clash(stored: seq<Contribution>, later: seq<Contribution>) {
    exists c, d :: (c in Collected(stored) || c in later) && d in later && c.message == d.message && c != d
  }

  lemma ClashIff(stored: seq<Contribution>, later: seq<Contribution>)
    ensures Clash(stored, later) <==> !Agree(Collected(stored), later) || !Agree(later, later)
  {
    var earlier := Collected(stored);
    if !Agree(earlier, later) {
      var i, k :| 0 <= i < |earlier| && 0 <= k < |later| && earlier[i].message == later[k].message && earlier[i] != later[k];
      assert earlier[i] in earlier && later[k] in later;
    } else if !Agree(later, later) {
      var i, k :| 0 <= i < |later| && 0 <= k < |later| && later[i].message == later[k].message && later[i] != later[k];
      assert later[i] in later && later[k] in later;
    }
  }

  /** What refuses a merge of claims: a clash, or else more than a thousand contributions in all; any other capability is replaced. */
  lemma MergeRefusedIff(stored: seq<Contribution>, later: seq<Contribution>)
    ensures MergeSpec(true, stored, later) == Conflict <==> Clash(stored, later)
    ensures !Clash(stored, later) ==>
      (MergeSpec(true, stored, later) == TooMany <==> |set c | c in Collected(stored) + later| > 1000)
    ensures MergeSpec(false, stored, later) == Kept(later)
  {
    var earlier := Collected(stored);
    ClashIff(stored, later);
    if !Clash(stored, later) {
      CollectedIsDistinct(stored);
      MergedIsDistinct(earlier, later);
      MergedHolds(earlier, later);
      DistinctCount(Merged(earlier, later));
      assert (set c | c in earlier + later) == (set c | c in Merged(earlier, later));
    }
  }

  method MergeProvenance(claims: bool, stored: seq<Contribution>, later: seq<Contribution>) returns (r: Merging)
    ensures r == MergeSpec(claims, stored, later)
  {
    if !claims { return Kept(later); }
    var all: seq<Contribution>, known: map<MessageId, Contribution> := Collect(stored);
    ghost var earlier := all;
    var k := 0;
    while k < |later|
      invariant k <= |later| && all == Merged(earlier, later[..k]) && Indexes(known, all)
      invariant Agree(earlier, later[..k]) && Agree(later[..k], later[..k])
    {
      var c := later[k];
      MergedNext(earlier, later, k);
      if c.message in known {
        if known[c.message] != c {
          NextDisagrees(known, earlier, later, k);
          return Conflict;
        }
        NextAgrees(known, earlier, later, k);
      } else {
        NextAgrees(known, earlier, later, k);
        IndexesSnoc(known, all, c);
        known := known[c.message := c];
        all := all + [c];
      }
      k := k + 1;
    }
    assert later[..k] == later;
    if |all| > MAX_CONTRIBUTIONS { return TooMany; }
    return Kept(all);
  }

  /** Merging a merged intake again, or any part of it, adds nothing. */
  lemma {:induction false} MergingIsIdempotent(s: seq<Contribution>, later: seq<Contribution>)
    requires forall c :: c in later ==> c in s
    ensures Merged(s, later) == s
  {
    if later != [] { MergingIsIdempotent(s, later[..|later| - 1]); }
  }
}
