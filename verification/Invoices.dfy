/** Creating a draft invoice once per idempotency key, over a ledger that changes behind our back. */
module Invoices {
  import opened Wrappers

  const DRAFT := "DRAFT"

  predicate Usable(status: string) { status != "DELETED" && status != "VOIDED" }

  // The cached answer of an earlier call.
  datatype Cached = Cached(id: string, status: string)

  datatype World = World(
    ledger: map<string, string>,       // Xero: status of every invoice it would still show
    cache: map<string, Cached>,        // idempotency:create_xero_invoice:{key}, by key
    made: map<string, string>)         // every invoice ever created here, with the key it was for

  // How the verification GET goes: answered from the ledger (an unknown id counts as a failure),
  // ProviderUnavailableError, or any other exception, which ends the call.
  datatype Lookup = Answered | Unavailable | Aborted

  // How the POST goes; `accpay` says whether the response names the right invoice type.
  datatype Reply = Made(id: string, status: string, accpay: bool) | NotMade

  datatype Result = Returned(id: string, status: string) | Raised

  datatype Op =
    | Create(key: string, lookup: Lookup, reply: Reply)
    | SetStatus(id: string, status: string)         // submit, void, delete, by whomever
    | Purge(id: string)                             // Xero no longer shows the invoice
    | Lapse(key: string)                            // the cache entry's time-to-live runs out

  function LiveStatus(w: World, id: string, lookup: Lookup): Option<string> {
    if lookup.Answered? && id in w.ledger then Some(w.ledger[id]) else None
  }

  predicate CacheHit(w: World, key: string, lookup: Lookup) {
    key in w.cache &&
    var status := LiveStatus(w, w.cache[key].id, lookup); status.Some? && Usable(status.value)
  }

  /** The call gets as far as making an invoice. */
  predicate Makes(w: World, op: Op) {
    op.Create? && op.reply.Made? && !(op.key in w.cache && op.lookup.Aborted?) && !CacheHit(w, op.key, op.lookup)
  }

  function WithInvoice(w: World, key: string, id: string): World {
    w.(ledger := w.ledger[id := DRAFT], made := w.made[id := key])
  }

  function Execute(w: World, key: string, lookup: Lookup, reply: Reply): (World, Result) {
    if key in w.cache && lookup.Aborted? then (w, Raised)
    else if CacheHit(w, key, lookup) then (w, Returned(w.cache[key].id, w.cache[key].status))
    else match reply
      case NotMade => (w, Raised)
      case Made(id, status, accpay) =>
        var w' := WithInvoice(w, key, id);
        if !accpay then (w', Raised)
        else (w'.(cache := w'.cache[key := Cached(id, status)]), Returned(id, status))
  }

  /** New invoices get new ids; voided and deleted are final. */
  predicate Enabled(w: World, op: Op) {
    match op
    case Create(_, _, reply) => reply.Made? ==> reply.id !in w.ledger && reply.id !in w.made
    case SetStatus(id, _) => id in w.ledger && Usable(w.ledger[id])
    case Purge(_) => true
    case Lapse(_) => true
  }

  function Step(w: World, op: Op): World {
    match op
    case Create(key, lookup, reply) => Execute(w, key, lookup, reply).0
    case SetStatus(id, status) => w.(ledger := w.ledger[id := status])
    case Purge(id) => w.(ledger := w.ledger - {id})
    case Lapse(key) => w.(cache := w.cache - {key})
  }

  function Run(w: World, ops: seq<Op>): World {
    if |ops| == 0 then w else Step(Run(w, ops[..|ops| - 1]), ops[|ops| - 1])
  }

  predicate EnabledRun(w: World, ops: seq<Op>) {
    |ops| > 0 ==>
      EnabledRun(w, ops[..|ops| - 1]) && Enabled(Run(w, ops[..|ops| - 1]), ops[|ops| - 1])
  }

  // ---- one live invoice per key ------------------------------------------------------------------

  predicate Live(w: World, id: string) { id in w.ledger && Usable(w.ledger[id]) }

  predicate CachedLive(w: World, key: string) { key in w.cache && Live(w, w.cache[key].id) }

  /** Every live invoice made for the key is the cached one. */
  ghost predicate OneLive(w: World, key: string) {
    forall id :: id in w.made && w.made[id] == key && Live(w, id) ==> key in w.cache && w.cache[key].id == id
  }

  ghost predicate CacheOk(w: World) {
    forall key :: key in w.cache ==> w.cache[key].id in w.made && w.made[w.cache[key].id] == key
  }

  /**
   What breaks the promise for a key: an invoice is made although the cached one is alive (its lookup
   failed), or made and not cached (wrong type), or the entry of a living invoice times out.
   */
  predicate Breaks(w: World, op: Op, key: string) {
    match op
    case Create(k, _, reply) => k == key && Makes(w, op) && (!reply.accpay || CachedLive(w, key))
    case Lapse(k) => k == key && CachedLive(w, key)
    case _ => false
  }

  /** A call, or anything else, keeps at most one live invoice per key exactly when it is none of these. */
  lemma OneLiveExactly(w: World, op: Op, key: string)
    requires CacheOk(w) && OneLive(w, key) && Enabled(w, op)
    ensures OneLive(Step(w, op), key) <==> !Breaks(w, op, key)
    ensures CacheOk(Step(w, op))
  {
    var w' := Step(w, op);
    if Breaks(w, op, key) {
      if op.Create? && !op.reply.accpay {
        assert op.reply.id in w'.made && w'.made[op.reply.id] == key && Live(w', op.reply.id);
      } else {
        assert w.cache[key].id in w'.made && Live(w', w.cache[key].id);
      }
    }
  }

  ghost predicate NeverBreaks(w: World, ops: seq<Op>, key: string) {
    |ops| > 0 ==>
      NeverBreaks(w, ops[..|ops| - 1], key) && !Breaks(Run(w, ops[..|ops| - 1]), ops[|ops| - 1], key)
  }

  /**
   At most one live invoice per key: over any run in which nothing breaks the promise for the key,
   however many retries, voids and deletes it holds, the living invoices made under the key are the
   cached one or none.
   */
  lemma {:induction false} AtMostOneLiveInvoice(w: World, ops: seq<Op>, key: string)
    requires CacheOk(w) && OneLive(w, key) && EnabledRun(w, ops) && NeverBreaks(w, ops, key)
    ensures OneLive(Run(w, ops), key) && CacheOk(Run(w, ops))
  {
    if |ops| > 0 {
      AtMostOneLiveInvoice(w, ops[..|ops| - 1], key);
      OneLiveExactly(Run(w, ops[..|ops| - 1]), ops[|ops| - 1], key);
    }
  }

  /** A retry during a Xero outage duplicates the invoice: the first one is alive and forgotten. */
  lemma OutageDuplicates()
    ensures var ops := [Create("k", Answered, Made("i1", DRAFT, true)), Create("k", Unavailable, Made("i2", DRAFT, true))];
      var w := World(map[], map[], map[]);
      && EnabledRun(w, ops)
      && Live(Run(w, ops), "i1") && Live(Run(w, ops), "i2")
      && Run(w, ops).made == map["i1" := "k", "i2" := "k"]
  {
    var first := Create("k", Answered, Made("i1", DRAFT, true));
    var second := Create("k", Unavailable, Made("i2", DRAFT, true));
    var w := World(map[], map[], map[]);
    assert [first, second][..1] == [first] && [first][..0] == [];
    assert Run(w, [first]) == Step(w, first);
    assert Run(w, [first, second]) == Step(Run(w, [first]), second);
  }

  // ---- how many invoices a key can cost ------------------------------------------------------------

  function Creations(w: World, ops: seq<Op>, key: string): nat {
    if |ops| == 0 then 0
    else
      var before := ops[..|ops| - 1];
      var op := ops[|ops| - 1];
      Creations(w, before, key) + if Makes(Run(w, before), op) && op.key == key then 1 else 0
  }

  /**
   What can excuse another invoice for the key: the cached one ceases to be usable, its entry times
   out, its lookup fails, or an invoice of the wrong type is made and not cached.
   */
  predicate Excuses(w: World, op: Op, key: string) {
    match op
    case Create(k, lookup, reply) =>
      k == key && ((key in w.cache && lookup.Unavailable?) || (Makes(w, op) && !reply.accpay))
    case SetStatus(id, status) => key in w.cache && w.cache[key].id == id && !Usable(status)
    case Purge(id) => key in w.cache && w.cache[key].id == id
    case Lapse(k) => k == key && key in w.cache
  }

  function Excused(w: World, ops: seq<Op>, key: string): nat {
    if |ops| == 0 then 0
    else
      var before := ops[..|ops| - 1];
      Excused(w, before, key) + if Excuses(Run(w, before), ops[|ops| - 1], key) then 1 else 0
  }

  lemma OneOp(w: World, op: Op, key: string)
    requires Enabled(w, op)
    ensures (if Makes(w, op) && op.key == key then 1 else 0) + (if CachedLive(w, key) then 1 else 0)
         <= (if Excuses(w, op, key) then 1 else 0) + (if CachedLive(Step(w, op), key) then 1 else 0)
  {}

  /** Invoices created for a key over any run: at most one, plus one for each excuse. */
  lemma {:induction false} CreationsAreExcused(w: World, ops: seq<Op>, key: string)
    requires EnabledRun(w, ops)
    ensures Creations(w, ops, key) + (if CachedLive(w, key) then 1 else 0)
         <= Excused(w, ops, key) + if CachedLive(Run(w, ops), key) then 1 else 0
    ensures Creations(w, ops, key) <= 1 + Excused(w, ops, key)
  {
    if |ops| > 0 {
      CreationsAreExcused(w, ops[..|ops| - 1], key);
      OneOp(Run(w, ops[..|ops| - 1]), ops[|ops| - 1], key);
    }
  }

  /** What the calls for the key returned or raised, in order. */
  function Answers(w: World, ops: seq<Op>, key: string): seq<Result> {
    if |ops| == 0 then []
    else
      var before, op := ops[..|ops| - 1], ops[|ops| - 1];
      Answers(w, before, key) +
      if op.Create? && op.key == key then [Execute(Run(w, before), key, op.lookup, op.reply).1] else []
  }

  /** The invoice that Xero makes at the first call for the key for which it makes one. */
  function FirstMade(ops: seq<Op>, key: string): Option<Cached> {
    if |ops| == 0 then None
    else
      var before, op := FirstMade(ops[..|ops| - 1], key), ops[|ops| - 1];
      if before.None? && op.Create? && op.key == key && op.reply.Made? then Some(Cached(op.reply.id, op.reply.status))
      else before
  }

  /** What the calls should return: that invoice, from that call on, as long as the lookup is not cut short. */
  function Expected(ops: seq<Op>, key: string): seq<Result> {
    if |ops| == 0 then []
    else
      var before, op := ops[..|ops| - 1], ops[|ops| - 1];
      Expected(before, key) +
      if !op.Create? || op.key != key then []
      else match FirstMade(ops, key)
        case None => [Raised]
        case Some(first) =>
          [if FirstMade(before, key).Some? && op.lookup.Aborted? then Raised else Returned(first.id, first.status)]
  }

  /** The cache knows the first invoice, and it is alive. */
  ghost predicate Remembers(w: World, first: Option<Cached>, key: string) {
    if first.None? then key !in w.cache else CachedLive(w, key) && w.cache[key] == first.value
  }

  lemma RemembersStep(w: World, ops: seq<Op>, op: Op, key: string)
    requires Remembers(w, FirstMade(ops, key), key) && Enabled(w, op) && !Excuses(w, op, key)
    ensures Remembers(Step(w, op), FirstMade(ops + [op], key), key)
    ensures Makes(w, op) && op.key == key <==> FirstMade(ops, key).None? && FirstMade(ops + [op], key).Some?
    ensures op.Create? && op.key == key ==>
      Expected(ops + [op], key) == Expected(ops, key) + [Execute(w, key, op.lookup, op.reply).1]
  {
    assert (ops + [op])[..|ops|] == ops;
  }

  /**
   With no excuse at all: one creation, at the first call for which Xero makes an invoice, and that
   call and every later one whose lookup is answered return that one invoice.
   */
  lemma {:induction false} RetriesAgree(w: World, ops: seq<Op>, key: string)
    requires key !in w.cache && EnabledRun(w, ops) && Excused(w, ops, key) == 0
    ensures Remembers(Run(w, ops), FirstMade(ops, key), key)
    ensures Creations(w, ops, key) == if FirstMade(ops, key).None? then 0 else 1
    ensures Answers(w, ops, key) == Expected(ops, key)
  {
    if |ops| > 0 {
      var before, op := ops[..|ops| - 1], ops[|ops| - 1];
      RetriesAgree(w, before, key);
      assert ops == before + [op];
      RemembersStep(Run(w, before), before, op, key);
    }
  }

  /** An earlier answer, if its invoice is still there and neither voided nor deleted, is the answer. */
  lemma UsableAnswerIsRepeated(w: World, key: string, reply: Reply)
    requires key in w.cache && w.cache[key].id in w.ledger
    requires w.ledger[w.cache[key].id] != "DELETED" && w.ledger[w.cache[key].id] != "VOIDED"
    ensures Execute(w, key, Answered, reply) == (w, Returned(w.cache[key].id, w.cache[key].status))
  {}

  /** In every other case but an aborted lookup the call turns to Xero for a new invoice. */
  lemma OtherwiseCreates(w: World, key: string, lookup: Lookup, reply: Reply)
    requires key in w.cache ==>
      || lookup.Unavailable?
      || (lookup.Answered? && (w.cache[key].id in w.ledger ==> w.ledger[w.cache[key].id] in {"DELETED", "VOIDED"}))
    ensures match reply
      case NotMade => Execute(w, key, lookup, reply) == (w, Raised)
      case Made(id, status, accpay) =>
        Execute(w, key, lookup, reply) == (
          World(w.ledger[id := "DRAFT"], if accpay then w.cache[key := Cached(id, status)] else w.cache, w.made[id := key]),
          if accpay then Returned(id, status) else Raised)
  {}

  lemma AbortedLookupRaises(w: World, key: string, reply: Reply)
    requires key in w.cache
    ensures Execute(w, key, Aborted, reply) == (w, Raised)
  {}

  lemma CacheStep(w: World, op: Op)
    requires CacheOk(w) && Enabled(w, op)
    ensures CacheOk(Step(w, op))
  {}

  lemma {:induction false} CacheStaysOk(w: World, ops: seq<Op>)
    requires CacheOk(w) && EnabledRun(w, ops)
    ensures CacheOk(Run(w, ops))
  {
    if |ops| > 0 {
      CacheStaysOk(w, ops[..|ops| - 1]);
      CacheStep(Run(w, ops[..|ops| - 1]), ops[|ops| - 1]);
    }
  }

  /**
   After any run, what a call returns is a living invoice that was made for its key and is cached
   under it: the one just made if the call made one, and otherwise nothing has changed.
   */
  lemma AnswersAreAlive(w: World, ops: seq<Op>, op: Op)
    requires CacheOk(w) && EnabledRun(w, ops) && op.Create? && Enabled(Run(w, ops), op)
    ensures var before := Run(w, ops); var (w', result) := Execute(before, op.key, op.lookup, op.reply);
      && (result.Returned? ==>
            && Live(w', result.id) && op.key in w'.cache && w'.cache[op.key] == Cached(result.id, result.status)
            && result.id in w'.made && w'.made[result.id] == op.key)
      && (if Makes(before, op) then
            && w'.made.Keys == before.made.Keys + {op.reply.id} && w'.made[op.reply.id] == op.key
            && result == (if op.reply.accpay then Returned(op.reply.id, op.reply.status) else Raised)
          else
            w' == before)
  {
    CacheStaysOk(w, ops);
  }

  /** CreateXeroDraftInvoice, acting on the cache and on Xero. */
  class CreateXeroDraftInvoice {
    var ledger: map<string, string>
    var cache: map<string, Cached>
    var made: map<string, string>

    constructor ()
      ensures State() == World(map[], map[], map[])
    {
      ledger, cache, made := map[], map[], map[];
    }

    function State(): World
      reads this
    {
      World(ledger, cache, made)
    }

    method Call(key: string, lookup: Lookup, reply: Reply) returns (result: Result)
      modifies this
      ensures (State(), result) == Execute(old(State()), key, lookup, reply)
    {
      if key in cache {
        var cached := cache[key];
        if lookup.Aborted? {
          return Raised;
        }
        var liveStatus: Option<string> := None;
        if lookup.Answered? && cached.id in ledger {
          liveStatus := Some(ledger[cached.id]);
        }
        if liveStatus.Some? && Usable(liveStatus.value) {
          return Returned(cached.id, cached.status);
        }
      }
      if reply.NotMade? {
        return Raised;
      }
      ledger, made := ledger[reply.id := DRAFT], made[reply.id := key];
      if !reply.accpay {
        return Raised;
      }
      cache := cache[key := Cached(reply.id, reply.status)];
      result := Returned(reply.id, reply.status);
    }
  }
}
