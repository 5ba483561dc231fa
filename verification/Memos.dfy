/** Submit, void, message and card: memo tables by idempotency key, in one map under the keys Keyspace spells. */
module Memos {
  import opened Wrappers
  import opened Keyspace

  // What is cached: an invoice's id and status, or a message's id.
  datatype Answer = Invoice(id: string, status: string) | Message(id: string)

  datatype World = World(cache: map<string, Answer>, sent: seq<(Operation, Option<string>)>)

  datatype Result = Returned(answer: Answer) | Raised | Crashed   // Crashed: a KeyError on the cached value

  datatype Op =
    | Call(op: Operation, raw: Option<string>, reply: Option<Answer>)   // reply: the provider's, if asked
    | Elsewhere(key: Key, answer: Answer)                               // another store writes a key
    | Lapse(key: Key)                                                   // an entry's time-to-live runs out

  /** The four operations that are plain memo tables. */
  predicate Plain(op: Operation) { op != CreateInvoice }

  predicate Teams(op: Operation) { op == SendMessage || op == SendApprovalCard }

  /** Teams sends are memoised only under a key that is there and not empty. */
  function KeyOf(op: Operation, raw: Option<string>): Option<Key> {
    if raw.Some? && (Teams(op) ==> raw.value != "") then Some(Memo(op, raw.value)) else None
  }

  predicate Fits(op: Operation, answer: Answer) { if Teams(op) then answer.Message? else answer.Invoice? }

  function Cached(w: World, key: Option<Key>): Option<Answer> {
    if key.Some? && Spell(key.value) in w.cache then Some(w.cache[Spell(key.value)]) else None
  }

  function Execute(w: World, op: Operation, raw: Option<string>, reply: Option<Answer>): (World, Result) {
    var key := KeyOf(op, raw);
    match Cached(w, key)
    case Some(answer) => (w, if Fits(op, answer) then Returned(answer) else Crashed)
    case None =>
      if reply.None? then (w, Raised)
      else
        (World(if key.Some? then w.cache[Spell(key.value) := reply.value] else w.cache, w.sent + [(op, raw)]),
         Returned(reply.value))
  }

  /**
   A call under a key: Xero operations always have one, Teams sends when it is not empty. What is
   under the operation's own key is the answer; otherwise the provider is asked, and what it
   answers is recorded as this call's and kept.
   */
  lemma KeyedCall(w: World, op: Operation, raw: string, reply: Option<Answer>)
    requires op == SubmitInvoice || op == VoidInvoice || ((op == SendMessage || op == SendApprovalCard) && raw != "")
    ensures var cell := Spell(Memo(op, raw));
      Execute(w, op, Some(raw), reply) ==
        if cell in w.cache then
          (w, if w.cache[cell].Invoice? <==> op == SubmitInvoice || op == VoidInvoice
              then Returned(w.cache[cell]) else Crashed)
        else if reply.None? then (w, Raised)
        else (World(w.cache[cell := reply.value], w.sent + [(op, Some(raw))]), Returned(reply.value))
  {}

  /** A Teams send without a key, or with an empty one, always goes out and is never remembered. */
  lemma KeylessSend(w: World, op: Operation, raw: Option<string>, reply: Option<Answer>)
    requires (op == SendMessage || op == SendApprovalCard) && (raw.None? || raw.value == "")
    ensures Execute(w, op, raw, reply) ==
      if reply.None? then (w, Raised) else (World(w.cache, w.sent + [(op, raw)]), Returned(reply.value))
  {}

  /** Xero calls carry a key; providers answer in kind; the other stores keep to their own keys. */
  predicate Proper(op: Op) {
    match op
    case Call(name, raw, reply) =>
      Plain(name) && (!Teams(name) ==> raw.Some?) && (reply.Some? ==> Fits(name, reply.value))
    case Elsewhere(key, _) => !(key.Memo? && Plain(key.op))
    case Lapse(_) => true
  }

  function Step(w: World, op: Op): World {
    match op
    case Call(name, raw, reply) => Execute(w, name, raw, reply).0
    case Elsewhere(key, answer) => w.(cache := w.cache[Spell(key) := answer])
    case Lapse(key) => w.(cache := w.cache - {Spell(key)})
  }

  function Run(w: World, ops: seq<Op>): World {
    if |ops| == 0 then w else Step(Run(w, ops[..|ops| - 1]), ops[|ops| - 1])
  }

  predicate Concerns(op: Op, key: Key) {
    match op
    case Call(name, raw, _) => KeyOf(name, raw) == Some(key)
    case Elsewhere(_, _) => false
    case Lapse(k) => k == key
  }

  /** The calls and lapses of one key, all else left out. */
  function Only(ops: seq<Op>, key: Key): seq<Op> {
    if |ops| == 0 then []
    else Only(ops[..|ops| - 1], key) + if Concerns(ops[|ops| - 1], key) then [ops[|ops| - 1]] else []
  }

  /** What the calls under the key returned, in order. */
  function Results(w: World, ops: seq<Op>, key: Key): seq<Result> {
    if |ops| == 0 then []
    else
      var before := ops[..|ops| - 1];
      var op := ops[|ops| - 1];
      Results(w, before, key) +
      if op.Call? && KeyOf(op.op, op.raw) == Some(key) then [Execute(Run(w, before), op.op, op.raw, op.reply).1] else []
  }

  function Successes(w: World, ops: seq<Op>, key: Key): nat {
    if |ops| == 0 then 0
    else
      var before := ops[..|ops| - 1];
      var op := ops[|ops| - 1];
      Successes(w, before, key) +
      if op.Call? && KeyOf(op.op, op.raw) == Some(key)
         && Step(Run(w, before), op).sent == Run(w, before).sent + [(op.op, op.raw)] then 1 else 0
  }

  lemma OthersLeaveKeyAlone(w: World, op: Op, key: Key)
    requires Proper(op) && key.Memo? && Plain(key.op) && !Concerns(op, key)
    ensures Cached(Step(w, op), Some(key)) == Cached(w, Some(key))
  {
    match op
    case Call(name, raw, _) =>
      if KeyOf(name, raw).Some? && Spell(KeyOf(name, raw).value) == Spell(key) {
        SpellingIsInjective(KeyOf(name, raw).value, key);
      }
    case Elsewhere(other, _) =>
      if Spell(other) == Spell(key) {
        SpellingIsInjective(other, key);
      }
    case Lapse(other) =>
      if Spell(other) == Spell(key) {
        SpellingIsInjective(other, key);
      }
  }

  lemma {:induction false} OnlySnoc(w: World, ops: seq<Op>, op: Op, key: Key)
    requires Concerns(op, key)
    ensures Run(w, ops + [op]) == Step(Run(w, ops), op)
    ensures Results(w, ops + [op], key) == Results(w, ops, key) +
      if op.Call? then [Execute(Run(w, ops), op.op, op.raw, op.reply).1] else []
  {}

  /**
   Each (operation, key) is a table of its own: what its calls return does not depend on any other
   call, other store or other key, equal raw keys of other operations included.
   */
  lemma {:induction false} TablesAreIndependent(w: World, ops: seq<Op>, key: Key)
    requires key.Memo? && Plain(key.op)
    requires forall op :: op in ops ==> Proper(op)
    ensures Cached(Run(w, ops), Some(key)) == Cached(Run(w, Only(ops, key)), Some(key))
    ensures Results(w, ops, key) == Results(w, Only(ops, key), key)
  {
    if |ops| > 0 {
      var before, op := ops[..|ops| - 1], ops[|ops| - 1];
      TablesAreIndependent(w, before, key);
      if Concerns(op, key) {
        OnlySnoc(w, Only(before, key), op, key);
      } else {
        OthersLeaveKeyAlone(Run(w, before), op, key);
        assert Only(ops, key) == Only(before, key);
      }
    }
  }

  predicate Calls(op: Op, key: Key) { op.Call? && KeyOf(op.op, op.raw) == Some(key) }

  /** The provider's answer to the first call under the key that it answered. */
  function FirstReply(ops: seq<Op>, key: Key): Option<Answer> {
    if |ops| == 0 then None
    else
      var before, op := FirstReply(ops[..|ops| - 1], key), ops[|ops| - 1];
      if before.None? && Calls(op, key) then op.reply else before
  }

  /** What the calls should return: that answer from then on, and until then an error. */
  function Expected(ops: seq<Op>, key: Key): seq<Result> {
    if |ops| == 0 then []
    else
      Expected(ops[..|ops| - 1], key) +
      if !Calls(ops[|ops| - 1], key) then []
      else [match FirstReply(ops, key) case Some(answer) => Returned(answer) case None => Raised]
  }

  /**
   While its entry lives, each (operation, key) succeeds at the provider at most once, at the first
   call the provider answers; that call and all later ones return that one answer, in the shape the
   operation expects, and the earlier ones fail.
   */
  lemma {:induction false} SucceedsOnce(w: World, ops: seq<Op>, key: Key)
    requires key.Memo? && Plain(key.op) && Cached(w, Some(key)) == None
    requires forall op :: op in ops ==> Proper(op) && op != Lapse(key)
    ensures Cached(Run(w, ops), Some(key)) == FirstReply(ops, key)
    ensures Results(w, ops, key) == Expected(ops, key)
    ensures Successes(w, ops, key) == if FirstReply(ops, key).Some? then 1 else 0
    ensures FirstReply(ops, key).Some? ==> Fits(key.op, FirstReply(ops, key).value)
  {
    if |ops| > 0 {
      var before, op := ops[..|ops| - 1], ops[|ops| - 1];
      SucceedsOnce(w, before, key);
      assert op in ops;
      if Concerns(op, key) {
        assert op.Call? && op.op == key.op;
      } else {
        OthersLeaveKeyAlone(Run(w, before), op, key);
      }
    }
  }

  /** The four use cases, acting on the shared cache. */
  class UseCases {
    var cache: map<string, Answer>
    var sent: seq<(Operation, Option<string>)>

    constructor ()
      ensures State() == World(map[], [])
    {
      cache, sent := map[], [];
    }

    function State(): World
      reads this
    {
      World(cache, sent)
    }

    /** SubmitXeroInvoice and VoidXeroInvoice, which differ in the operation's name alone. */
    method ChangeInvoiceStatus(op: Operation, raw: string, reply: Option<Answer>) returns (result: Result)
      requires op == SubmitInvoice || op == VoidInvoice
      modifies this
      ensures (State(), result) == Execute(old(State()), op, Some(raw), reply)
    {
      var idemKey := Spell(Memo(op, raw));
      if idemKey in cache {
        return if cache[idemKey].Invoice? then Returned(cache[idemKey]) else Crashed;
      }
      if reply == None {
        return Raised;
      }
      sent := sent + [(op, Some(raw))];
      cache := cache[idemKey := reply.value];
      result := Returned(reply.value);
    }

    /** SendTeamsMessage and SendTeamsApprovalCard. */
    method Send(op: Operation, raw: Option<string>, reply: Option<Answer>) returns (result: Result)
      requires Teams(op)
      modifies this
      ensures (State(), result) == Execute(old(State()), op, raw, reply)
    {
      var idemKey: Option<string> := None;
      if raw.Some? && raw.value != "" {
        idemKey := Some(Spell(Memo(op, raw.value)));
      }
      if idemKey.Some? && idemKey.value in cache {
        return if cache[idemKey.value].Message? then Returned(cache[idemKey.value]) else Crashed;
      }
      if reply == None {
        return Raised;
      }
      sent := sent + [(op, raw)];
      if idemKey.Some? {
        cache := cache[idemKey.value := reply.value];
      }
      result := Returned(reply.value);
    }
  }
}
