/**
  The two collections the mail writers use, `mails` and `threads`, as an
  in-memory store. Every insert and upsert takes its outcome as a parameter
  (`None` for success, `Some(e)` for the error the database returns), so a
  failing database is modelled by the caller's choice of outcomes.
*/
module MailStore {
  import opened Wrappers
  import opened Models

  /** The filter of `updateThread`'s upsert: `user_id` and `thread_id`. */
  datatype ThreadKey = ThreadKey(userID: string, threadID: string)

  /** `updateThread`: `$push` the entry onto the thread's mails and `$inc`
      its total by one; with upsert, a missing thread is created holding
      its key fields (`$setOnInsert`). */
  function Upsert(threads: map<ThreadKey, Thread>, key: ThreadKey, entry: ThreadMail)
    : (r: map<ThreadKey, Thread>)
    ensures r.Keys == threads.Keys + {key}
    ensures r[key].mails == (if key in threads then threads[key].mails else []) + [entry]
    ensures r[key].totalMails == (if key in threads then threads[key].totalMails else 0) + 1
    ensures forall k :: k in threads && k != key ==> r[k] == threads[k]
  {
    if key in threads then
      var t := threads[key];
      threads[key := t.(mails := t.mails + [entry], totalMails := t.totalMails + 1)]
    else
      threads[key := Thread(key.threadID, [entry], 1, key.userID)]
  }

  /** Every thread is stored under its own key and counts its mails. */
  predicate ThreadsConsistent(threads: map<ThreadKey, Thread>) {
    forall k :: k in threads ==>
      && threads[k].totalMails == |threads[k].mails|
      && threads[k].userID == k.userID && threads[k].threadID == k.threadID
  }

  /** The upsert keeps `total_mails` equal to the number of pushed mails,
      for threads written only by upserts. */
  lemma UpsertConsistent(threads: map<ThreadKey, Thread>, key: ThreadKey, entry: ThreadMail)
    requires ThreadsConsistent(threads)
    ensures ThreadsConsistent(Upsert(threads, key, entry))
  {
  }

  /** The contents of both collections. */
  datatype StoreState = StoreState(mails: seq<Mail>, threads: map<ThreadKey, Thread>)

  /** One database write. */
  datatype StoreOp = InsertMail(mail: Mail) | PushThread(key: ThreadKey, entry: ThreadMail)

  /** A planned write, and whether its error ends the operation (`true`) or
      is dropped (`false`). */
  datatype Write = Write(op: StoreOp, aborts: bool)

  /** The store after a successful write. */
  function Apply(s: StoreState, op: StoreOp): (t: StoreState)
    ensures op.InsertMail? ==> t == StoreState(s.mails + [op.mail], s.threads)
    ensures op.PushThread? ==> t == StoreState(s.mails, Upsert(s.threads, op.key, op.entry))
  {
    match op
    case InsertMail(m) => s.(mails := s.mails + [m])
    case PushThread(key, entry) => s.(threads := Upsert(s.threads, key, entry))
  }

  /** The store after a sequence of writes, and the error it returned. */
  datatype Outcome = Outcome(state: StoreState, err: Option<string>)

  /** Runs the writes in order: a successful write takes effect; a failed
      one takes no effect, and either ends the run with its error or, when
      its error is dropped, lets the run go on. */
  function Perform(s: StoreState, ws: seq<Write>, outs: seq<Option<string>>): Outcome
    requires |outs| == |ws|
    decreases |ws|
  {
    if |ws| == 0 then Outcome(s, None)
    else if outs[0].Some? then
      if ws[0].aborts then Outcome(s, outs[0]) else Perform(s, ws[1..], outs[1..])
    else Perform(Apply(s, ws[0].op), ws[1..], outs[1..])
  }

  /** The writes a run applies: the successful ones before the first
      failure that ends it. */
  function Applied(ws: seq<Write>, outs: seq<Option<string>>): (ops: seq<StoreOp>)
    requires |outs| == |ws|
    ensures |ops| <= |ws|
    decreases |ws|
  {
    if |ws| == 0 then []
    else if outs[0].Some? then
      if ws[0].aborts then [] else Applied(ws[1..], outs[1..])
    else [ws[0].op] + Applied(ws[1..], outs[1..])
  }

  function ApplyAll(s: StoreState, ops: seq<StoreOp>): StoreState
    decreases |ops|
  {
    if |ops| == 0 then s else ApplyAll(Apply(s, ops[0]), ops[1..])
  }

  /** The mails a sequence of writes inserts, in order. */
  function Inserted(ops: seq<StoreOp>): seq<Mail>
    decreases |ops|
  {
    if |ops| == 0 then []
    else (if ops[0].InsertMail? then [ops[0].mail] else []) + Inserted(ops[1..])
  }

  /** Writes only ever append to `mails`, the inserted mails in order. */
  lemma {:induction false} ApplyAllMails(s: StoreState, ops: seq<StoreOp>)
    ensures ApplyAll(s, ops).mails == s.mails + Inserted(ops)
    decreases |ops|
  {
    if |ops| > 0 {
      ApplyAllMails(Apply(s, ops[0]), ops[1..]);
    }
  }

  /** Writes that alternate insert, upsert, ... insert the mails of their
      even positions. */
  lemma {:induction false} PairsInserted(ops: seq<StoreOp>, n: nat)
    requires |ops| == 2 * n
    requires forall j :: 0 <= j < n ==> ops[2 * j].InsertMail? && ops[2 * j + 1].PushThread?
    ensures Inserted(ops) == seq(n, j requires 0 <= j < n => ops[2 * j].mail)
    decreases n
  {
    if n > 0 {
      var rest := ops[2..];
      forall j | 0 <= j < n - 1 ensures rest[2 * j].InsertMail? && rest[2 * j + 1].PushThread? {
        assert rest[2 * j] == ops[2 * (j + 1)];
        assert rest[2 * j + 1] == ops[2 * (j + 1) + 1];
      }
      PairsInserted(rest, n - 1);
      assert ops[2 * 0].InsertMail? && ops[2 * 0 + 1].PushThread?;
      assert ops[1..][1..] == rest;
      assert Inserted(ops[1..]) == Inserted(rest);
      assert Inserted(ops) == [ops[0].mail] + Inserted(rest);
      EvenMailsStep(ops, n);
    }
  }

  /** The mails at the even positions: the first, then those of the rest. */
  lemma EvenMailsStep(ops: seq<StoreOp>, n: nat)
    requires |ops| == 2 * n && n > 0
    requires forall j :: 0 <= j < n ==> ops[2 * j].InsertMail?
    requires ops[0].InsertMail? && forall j :: 0 <= j < n - 1 ==> ops[2..][2 * j].InsertMail?
    ensures seq(n, j requires 0 <= j < n => ops[2 * j].mail) ==
      [ops[0].mail] + seq(n - 1, j requires 0 <= j < n - 1 => ops[2..][2 * j].mail)
  {
    var rest := ops[2..];
    var want := seq(n, j requires 0 <= j < n => ops[2 * j].mail);
    var tail := seq(n - 1, j requires 0 <= j < n - 1 => rest[2 * j].mail);
    forall j | 0 <= j < n ensures want[j] == ([ops[0].mail] + tail)[j] {
      if j > 0 {
        assert rest[2 * (j - 1)] == ops[2 * j];
      }
    }
  }

  /** The operations of a sequence of writes. */
  function Ops(ws: seq<Write>): (ops: seq<StoreOp>)
    ensures |ops| == |ws| && forall j :: 0 <= j < |ws| ==> ops[j] == ws[j].op
  {
    seq(|ws|, j requires 0 <= j < |ws| => ws[j].op)
  }

  /** A run in which every insert succeeds and every upsert's error is
      dropped ends without error, having inserted every mail. */
  lemma {:induction false} InsertsDespiteDroppedErrors(s: StoreState, ws: seq<Write>, outs: seq<Option<string>>)
    requires |outs| == |ws|
    requires forall j :: 0 <= j < |ws| ==>
      (ws[j].op.InsertMail? ==> outs[j].None?) && (ws[j].op.PushThread? ==> !ws[j].aborts)
    ensures Perform(s, ws, outs).err == None
    ensures Perform(s, ws, outs).state.mails == s.mails + Inserted(Ops(ws))
    decreases |ws|
  {
    if |ws| > 0 {
      var ops := Ops(ws);
      assert ops[1..] == Ops(ws[1..]);
      assert Inserted(ops) == (if ops[0].InsertMail? then [ops[0].mail] else []) + Inserted(ops[1..]);
      if ws[0].op.InsertMail? {
        InsertsDespiteDroppedErrors(Apply(s, ws[0].op), ws[1..], outs[1..]);
      } else if outs[0].Some? {
        InsertsDespiteDroppedErrors(s, ws[1..], outs[1..]);
      } else {
        InsertsDespiteDroppedErrors(Apply(s, ws[0].op), ws[1..], outs[1..]);
      }
    }
  }

  /** The index of the first write whose error ends the run, or `|ws|`. */
  function FirstAbort(ws: seq<Write>, outs: seq<Option<string>>): (k: nat)
    requires |outs| == |ws|
    ensures k <= |ws|
    ensures forall j :: 0 <= j < k ==> !(outs[j].Some? && ws[j].aborts)
    ensures k < |ws| ==> outs[k].Some? && ws[k].aborts
    decreases |ws|
  {
    if |ws| == 0 then 0
    else if outs[0].Some? && ws[0].aborts then 0
    else
      var k := FirstAbort(ws[1..], outs[1..]);
      assert forall j :: 1 <= j <= k ==> ws[1..][j - 1] == ws[j] && outs[1..][j - 1] == outs[j];
      k + 1
  }

  /** A run ends with the error of its first aborting failure, if there is
      one, and otherwise succeeds; the store it leaves is the one the
      successful writes before that failure produce, and nothing after it
      is written. */
  lemma {:induction false} PerformFacts(s: StoreState, ws: seq<Write>, outs: seq<Option<string>>)
    requires |outs| == |ws|
    ensures var k := FirstAbort(ws, outs);
      && Perform(s, ws, outs).err == (if k < |ws| then outs[k] else None)
      && Perform(s, ws, outs).state == ApplyAll(s, Applied(ws, outs))
      && Applied(ws, outs) == Applied(ws[..k], outs[..k])
    decreases |ws|
  {
    if |ws| > 0 {
      var k := FirstAbort(ws, outs);
      if outs[0].Some? && ws[0].aborts {
      } else {
        PerformFacts(if outs[0].Some? then s else Apply(s, ws[0].op), ws[1..], outs[1..]);
        assert ws[..k][1..] == ws[1..][..k - 1];
        assert outs[..k][1..] == outs[1..][..k - 1];
      }
    }
  }

  /** A run only ever appends to `mails`, and keeps the threads consistent. */
  lemma {:induction false} PerformAppends(s: StoreState, ws: seq<Write>, outs: seq<Option<string>>)
    requires |outs| == |ws|
    requires ThreadsConsistent(s.threads)
    ensures var t := Perform(s, ws, outs).state;
      |s.mails| <= |t.mails| && t.mails[..|s.mails|] == s.mails && ThreadsConsistent(t.threads)
    decreases |ws|
  {
    if |ws| > 0 && !(outs[0].Some? && ws[0].aborts) {
      var next := if outs[0].Some? then s else Apply(s, ws[0].op);
      if outs[0].None? && ws[0].op.PushThread? {
        UpsertConsistent(s.threads, ws[0].op.key, ws[0].op.entry);
      }
      PerformAppends(next, ws[1..], outs[1..]);
      assert next.mails[..|s.mails|] == s.mails;
    }
  }

  /** When every write succeeds, all of them are applied. */
  lemma {:induction false} PerformAllSucceed(s: StoreState, ws: seq<Write>, outs: seq<Option<string>>)
    requires |outs| == |ws| && forall j :: 0 <= j < |outs| ==> outs[j].None?
    ensures Perform(s, ws, outs) == Outcome(ApplyAll(s, seq(|ws|, j requires 0 <= j < |ws| => ws[j].op)), None)
    decreases |ws|
  {
    if |ws| > 0 {
      PerformAllSucceed(Apply(s, ws[0].op), ws[1..], outs[1..]);
      var ops := seq(|ws|, j requires 0 <= j < |ws| => ws[j].op);
      assert ops[1..] == seq(|ws| - 1, j requires 0 <= j < |ws| - 1 => ws[1..][j].op);
    }
  }

  /** The first mail with the given `_id`: `FindOne` on the `mails` collection. */
  function FindMail(mails: seq<Mail>, id: string): (r: Option<Mail>)
    ensures r.Some? ==> r.value in mails && r.value.id == id
    ensures r.None? ==> forall k :: 0 <= k < |mails| ==> mails[k].id != id
  {
    if |mails| == 0 then None
    else if mails[0].id == id then Some(mails[0])
    else FindMail(mails[1..], id)
  }

  /** The two collections of the database. */
  class Store {
    var mails: seq<Mail>
    var threads: map<ThreadKey, Thread>

    function State(): StoreState
      reads this
    {
      StoreState(mails, threads)
    }

    constructor (initial: StoreState)
      ensures State() == initial
    {
      mails := initial.mails;
      threads := initial.threads;
    }

    /** `InsertOne` on `mails`. */
    method InsertOne(m: Mail, outcome: Option<string>) returns (err: Option<string>)
      modifies this`mails
      ensures err == outcome
      ensures mails == if outcome.None? then old(mails) + [m] else old(mails)
    {
      err := outcome;
      if outcome.None? {
        mails := mails + [m];
      }
    }

    /** The upsert of `updateThread` on `threads`. */
    method UpdateThread(key: ThreadKey, entry: ThreadMail, outcome: Option<string>) returns (err: Option<string>)
      modifies this`threads
      ensures err == outcome
      ensures threads == if outcome.None? then Upsert(old(threads), key, entry) else old(threads)
    {
      err := outcome;
      if outcome.None? {
        threads := Upsert(threads, key, entry);
      }
    }
  }
}
