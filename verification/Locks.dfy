/**
 The conversation lock: a key with an owner and an expiry, acquired if absent, renewed and released
 only by its owner.  The body keeps running when a renewal fails; the failure is raised at the end.
 */
module Locks {
  import opened Wrappers
  import opened Clock

  type Id = nat    // the random lease value of one hold

  datatype Lease = Lease(owner: Id, expires: Time)

  predicate Live(key: Option<Lease>, now: Time) {
    key.Some? && now < key.value.expires
  }

  predicate OwnedBy(key: Option<Lease>, x: Id, now: Time) {
    Live(key, now) && key.value.owner == x
  }

  /** SET key value NX PX. */
  function SetIfAbsent(key: Option<Lease>, x: Id, now: Time, lease: int): Option<Lease> {
    if Live(key, now) then key else Some(Lease(x, now + lease))
  }

  /** The renew script. */
  function Renewed(key: Option<Lease>, x: Id, now: Time, lease: int): Option<Lease> {
    if OwnedBy(key, x, now) then Some(Lease(x, now + lease)) else key
  }

  /** The release script. */
  function Freed(key: Option<Lease>, x: Id, now: Time): Option<Lease> {
    if OwnedBy(key, x, now) then None else key
  }

  /** Renewing or releasing never extends, shortens or deletes anybody else's lease. */
  lemma ScriptsSpareOthers(key: Option<Lease>, x: Id, now: Time, lease: int)
    requires key.Some? && key.value.owner != x
    ensures Renewed(key, x, now, lease) == key && Freed(key, x, now) == key
  {
  }

  /** The owner of a live lease extends it from now, or deletes the key; and a key is set exactly when no lease on it is live. */
  lemma ScriptsServeTheOwner(key: Option<Lease>, x: Id, now: Time, lease: int)
    ensures key.Some? && now < key.value.expires && key.value.owner == x ==>
      Renewed(key, x, now, lease) == Some(Lease(x, now + lease)) && Freed(key, x, now).None?
    ensures key.None? || now >= key.value.expires ==>
      && SetIfAbsent(key, x, now, lease) == Some(Lease(x, now + lease))
      && Renewed(key, x, now, lease) == key && Freed(key, x, now) == key
    ensures key.Some? && now < key.value.expires ==> SetIfAbsent(key, x, now, lease) == key
  {
  }

  class Store {
    const lease: int
    var key: Option<Lease>

    constructor (lease: int)
      ensures this.lease == lease && key == None
    {
      this.lease, key := lease, None;
    }

    /** The polling loop of one hold; `clock` is when each poll reaches the store. */
    method Acquire(x: Id, clock: seq<Time>, deadline: Time) returns (polls: nat, acquired: bool)
      requires |clock| > 0 && clock[|clock| - 1] >= deadline
      modifies this
      ensures 1 <= polls <= |clock|
      ensures acquired <==> !Live(old(key), clock[polls - 1])
      ensures !acquired ==> clock[polls - 1] >= deadline
      ensures forall k :: 0 <= k < polls - 1 ==> Live(old(key), clock[k]) && clock[k] < deadline
      ensures key == SetIfAbsent(old(key), x, clock[polls - 1], lease)
    {
      polls := 0;
      while true
        invariant polls < |clock| && key == old(key)
        invariant forall k :: 0 <= k < polls ==> Live(key, clock[k]) && clock[k] < deadline
        decreases |clock| - polls
      {
        var now := clock[polls];
        polls := polls + 1;
        if key.None? || now >= key.value.expires {
          key := Some(Lease(x, now + lease));
          return polls, true;
        }
        if now >= deadline {
          return polls, false;
        }
      }
    }

    /** The renewal loop: one renewal at each instant of `clock`, until one fails. */
    method Renew(x: Id, clock: seq<Time>) returns (made: nat)
      modifies this
      ensures made <= |clock| && AllRenew(old(key), x, clock[..made], lease)
      ensures key == RenewedAt(old(key), x, clock[..made], lease)
      ensures made < |clock| ==> !OwnedBy(key, x, clock[made])
    {
      made := 0;
      while made < |clock|
        invariant made <= |clock| && AllRenew(old(key), x, clock[..made], lease)
        invariant key == RenewedAt(old(key), x, clock[..made], lease)
      {
        assert clock[..made + 1][..made] == clock[..made];
        if key.None? || clock[made] >= key.value.expires || key.value.owner != x {
          return;
        }
        key := Some(key.value.(expires := clock[made] + lease));
        made := made + 1;
      }
    }

    method Release(x: Id, now: Time)
      modifies this
      ensures key == Freed(old(key), x, now)
    {
      if key.Some? && now < key.value.expires && key.value.owner == x {
        key := None;
      }
    }
  }

  function RenewedAt(key: Option<Lease>, x: Id, clock: seq<Time>, lease: int): Option<Lease> {
    if clock == [] then key
    else Renewed(RenewedAt(key, x, clock[..|clock| - 1], lease), x, clock[|clock| - 1], lease)
  }

  /** Each of these renewals finds its own lease. */
  predicate AllRenew(key: Option<Lease>, x: Id, clock: seq<Time>, lease: int) {
    clock == [] || (
      && AllRenew(key, x, clock[..|clock| - 1], lease)
      && OwnedBy(RenewedAt(key, x, clock[..|clock| - 1], lease), x, clock[|clock| - 1]))
  }

  /** Renewals that all found their lease came before it ran out, each time, and the last one counts. */
  lemma {:induction false} RenewalsExtend(key: Option<Lease>, x: Id, clock: seq<Time>, lease: int, k: nat)
    requires AllRenew(key, x, clock, lease) && k < |clock|
    ensures key.Some? && key.value.owner == x
    ensures clock[k] < if k == 0 then key.value.expires else clock[k - 1] + lease
    ensures RenewedAt(key, x, clock, lease) == Some(Lease(x, clock[|clock| - 1] + lease))
  {
    var init := clock[..|clock| - 1];
    if init != [] { RenewalsExtend(key, x, init, lease, if k < |init| then k else |init| - 1); }
  }

  // ---- Every interleaving of holders ----

  /** `inside` maps each hold whose body runs to when it last confirmed its lease. */
  datatype Cell = Cell(key: Option<Lease>, now: Time, inside: map<Id, Time>, known: set<Id>, lease: int)

  datatype Event =
    | Wait(span: nat)
    | Enter(hold: Id)
    | Renew(hold: Id)     // also one still in flight when its hold has ended
    | Leave(hold: Id)
    | Crash(hold: Id)

  function Step(c: Cell, e: Event): Cell {
    match e
    case Wait(span) => c.(now := c.now + span)
    case Enter(x) =>
      if x in c.known then c
      else if Live(c.key, c.now) then c.(known := c.known + {x})
      else c.(key := SetIfAbsent(c.key, x, c.now, c.lease), known := c.known + {x}, inside := c.inside[x := c.now])
    case Renew(x) =>
      if x !in c.known then c
      else c.(key := Renewed(c.key, x, c.now, c.lease),
              inside := if x in c.inside && OwnedBy(c.key, x, c.now) then c.inside[x := c.now] else c.inside)
    case Leave(x) => if x in c.inside then c.(key := Freed(c.key, x, c.now), inside := c.inside - {x}) else c
    case Crash(x) => c.(inside := c.inside - {x})
  }

  function Run(c: Cell, es: seq<Event>): Cell {
    if es == [] then c else Step(Run(c, es[..|es| - 1]), es[|es| - 1])
  }

  function Idle(now: Time, lease: int): Cell {
    Cell(None, now, map[], {}, lease)
  }

  predicate Late(c: Cell, x: Id)
    requires x in c.inside
  {
    c.now >= c.inside[x] + c.lease
  }

  predicate Punctual(c: Cell) {
    forall x :: x in c.inside ==> !Late(c, x)
  }

  predicate Exclusive(c: Cell) {
    forall x, y :: x in c.inside && y in c.inside ==> x == y
  }

  /** Whoever is inside and not late owns the key, with the expiry it last confirmed. */
  predicate Inv(c: Cell) {
    && c.lease > 0
    && (forall x :: x in c.inside ==> x in c.known && c.inside[x] <= c.now)
    && (c.key.Some? ==> c.key.value.owner in c.known && c.key.value.expires <= c.now + c.lease)
    && (c.key.Some? && c.key.value.owner in c.inside ==> c.key.value.expires == c.inside[c.key.value.owner] + c.lease)
    && (forall x :: x in c.inside && !Late(c, x) ==> c.key == Some(Lease(x, c.inside[x] + c.lease)))
  }

  lemma StepKeeps(c: Cell, e: Event)
    requires Inv(c)
    ensures Inv(Step(c, e))
  {
  }

  lemma {:induction false} RunKeeps(c: Cell, es: seq<Event>)
    requires Inv(c)
    ensures Inv(Run(c, es))
  {
    if es != [] {
      RunKeeps(c, es[..|es| - 1]);
      StepKeeps(Run(c, es[..|es| - 1]), es[|es| - 1]);
    }
  }

  /** Mutual exclusion at every moment at which the holders are punctual, whatever they were before. */
  lemma PunctualHoldersExclude(now: Time, lease: int, es: seq<Event>)
    requires lease > 0 && Punctual(Run(Idle(now, lease), es))
    ensures Exclusive(Run(Idle(now, lease), es))
    ensures forall x :: x in Run(Idle(now, lease), es).inside ==>
      OwnedBy(Run(Idle(now, lease), es).key, x, Run(Idle(now, lease), es).now)
  {
    var c := Run(Idle(now, lease), es);
    RunKeeps(Idle(now, lease), es);
  }

  ghost predicate Reachable(c: Cell) {
    exists now: Time, lease: int, es: seq<Event> :: lease > 0 && c == Run(Idle(now, lease), es)
  }

  lemma ReachableInv(c: Cell)
    requires Reachable(c)
    ensures Inv(c)
  {
    var now: Time, lease: int, es: seq<Event> :| lease > 0 && c == Run(Idle(now, lease), es);
    RunKeeps(Idle(now, lease), es);
  }

  /** And that is exact: beside a lone holder, a newcomer gets in if and only if the holder is late and the key not taken. */
  lemma SecondHolderIff(c: Cell, x: Id, y: Id)
    requires Reachable(c) && c.inside.Keys == {x} && y !in c.known
    ensures !Exclusive(Step(c, Enter(y))) <==> Late(c, x) && !Live(c.key, c.now)
    ensures c.key.Some? && c.key.value.owner == x && Late(c, x) ==> !Exclusive(Step(c, Enter(y)))
  {
    ReachableInv(c);
    assert x in c.inside;
    if !Live(c.key, c.now) {
      assert x in Step(c, Enter(y)).inside && y in Step(c, Enter(y)).inside;
    }
  }

  /** A live lease is changed by nobody but its owner. */
  lemma OnlyTheOwnerTouchesALiveLease(c: Cell, e: Event)
    requires Live(c.key, c.now) && Step(c, e).key != c.key
    ensures (e.Renew? || e.Leave?) && e.hold == c.key.value.owner
  {
  }

  /** A hold that has lost its lease never gets it back, so its renewal fails for good. */
  lemma {:induction false} LostLeaseNeverReturns(c: Cell, x: Id, es: seq<Event>)
    requires x in c.known && !OwnedBy(c.key, x, c.now)
    ensures x in Run(c, es).known && !OwnedBy(Run(c, es).key, x, Run(c, es).now)
  {
    if es != [] { LostLeaseNeverReturns(c, x, es[..|es| - 1]); }
  }

  /** A newcomer's hold begins exactly when no lease is live, and then owns the key for one lease. */
  lemma EntersIff(c: Cell, x: Id)
    requires x !in c.known && x !in c.inside
    ensures var c' := Step(c, Enter(x));
      var free := c.key.None? || c.now >= c.key.value.expires;
      && x in c'.known
      && (if free then x in c'.inside && c'.inside[x] == c.now && c'.key == Some(Lease(x, c.now + c.lease))
          else c'.inside == c.inside && c'.key == c.key)
  {
  }

  /** A renewal confirms its hold, and moves the key's expiry, exactly while that hold owns a live lease. */
  lemma RenewingIs(c: Cell, x: Id)
    requires x in c.known
    ensures var c' := Step(c, Renew(x));
      if c.key.Some? && c.now < c.key.value.expires && c.key.value.owner == x
      then c'.key == Some(Lease(x, c.now + c.lease)) && (x in c.inside ==> c'.inside == c.inside[x := c.now])
      else c'.key == c.key && c'.inside == c.inside
  {
  }

  /** A hold that ends while it owns the key frees it at once; one that does not touches nothing but itself. */
  lemma LeavingFrees(c: Cell, x: Id)
    requires x in c.inside
    ensures var c' := Step(c, Leave(x));
      && c'.inside == c.inside - {x}
      && c'.key == (if c.key.Some? && c.now < c.key.value.expires && c.key.value.owner == x then None else c.key)
    ensures forall y :: y !in c.inside ==> Step(c, Leave(y)) == c
  {
  }

  /** A body that outlives its lease without renewing it is joined by a second one. */
  lemma LateHolderIsJoined(now: Time, lease: nat, x: Id, y: Id)
    requires lease > 0 && x != y
    ensures Run(Idle(now, lease), [Enter(x), Wait(lease), Enter(y)]).inside.Keys == {x, y}
  {
    var es := [Enter(x), Wait(lease), Enter(y)];
    assert es[..2] == [es[0], es[1]] && es[..2][..1] == [es[0]] && es[..1][..0] == [];
    assert Run(Idle(now, lease), es[..2][..1]) == Step(Idle(now, lease), es[0]);
    assert Run(Idle(now, lease), es[..2]) == Step(Step(Idle(now, lease), es[0]), es[1]);
  }
}
