/**
  `DBHandler` of handler/db_handler.go over the in-memory store: choosing
  the thread of a new mail, the fan-out of its copies and thread entries,
  and the query options of the list and search calls. Fresh ObjectIDs and
  the clock are parameters.
*/
module DbHandler {
  import opened Wrappers
  import opened Models
  import opened Collections
  import opened MailStore

  /** The error `FindOne(...).Decode` returns when no document matches. */
  const ErrNoDocuments: string := "mongo: no documents in result"

  /** The thread a new mail joins: a fresh one, or that of the mail it
      replies to. A malformed id gives the error of `ObjectIDFromHex`
      unchanged. The lookup of that mail is a `FindOne(...).Decode`, which
      fails with `findErr` when the driver reports an error and with "no
      documents" when no mail has the id. */
  function ThreadFor(mails: seq<Mail>, replyTo: string, newThreadID: string, findErr: Option<string>)
    : Result<string, string>
  {
    if replyTo == "" then Ok(newThreadID)
    else
      match ObjectIDFromHex(replyTo)
      case Err(e) => Err(e)
      case Ok(objID) =>
        if findErr.Some? then Err(findErr.value)
        else
          match FindMail(mails, objID)
          case None => Err(ErrNoDocuments)
          case Some(original) => Ok(original.threadID)
  }

  /** The ways the thread is chosen: no reply gives the fresh thread; a
      reply to an id that is not 24 bytes long gives `ErrInvalidHex`, and
      one of 24 bytes with a character that is no hex digit gives the
      decoding error of the first byte that is not; a failed lookup gives
      its error and a reply to no stored mail "no documents"; a reply to a
      stored mail whose lookup succeeds joins that mail's thread. */
  lemma ThreadForCases(mails: seq<Mail>, replyTo: string, newThreadID: string, findErr: Option<string>, k: int)
    ensures replyTo == "" ==> ThreadFor(mails, replyTo, newThreadID, findErr) == Ok(newThreadID)
    ensures replyTo != "" && |Utf8(replyTo)| != 24 ==>
      ThreadFor(mails, replyTo, newThreadID, findErr) == Err(ErrInvalidHex)
    ensures replyTo != "" && |Utf8(replyTo)| == 24 && (exists i :: 0 <= i < |replyTo| && !IsHexDigit(replyTo[i])) ==>
      exists i :: 0 <= i < 24 && !IsHexByte(Utf8(replyTo)[i]) && (forall j :: 0 <= j < i ==> IsHexByte(Utf8(replyTo)[j]))
                  && ThreadFor(mails, replyTo, newThreadID, findErr) == Err(InvalidByteError(Utf8(replyTo)[i]))
    ensures replyTo != "" && IsObjectID(replyTo) && findErr.Some? ==>
      ThreadFor(mails, replyTo, newThreadID, findErr) == Err(findErr.value)
    ensures replyTo != "" && (forall j :: 0 <= j < |mails| ==> mails[j].id != replyTo) && IsObjectID(replyTo)
            && findErr.None? ==>
      ThreadFor(mails, replyTo, newThreadID, findErr) == Err(ErrNoDocuments)
    ensures (0 <= k < |mails| && replyTo == mails[k].id && IsObjectID(replyTo) && findErr.None?
             && forall j :: 0 <= j < k ==> mails[j].id != replyTo) ==>
      ThreadFor(mails, replyTo, newThreadID, findErr) == Ok(mails[k].threadID)
  {
    ObjectIDFromHexErrors(replyTo);
    if replyTo != "" && |Utf8(replyTo)| == 24 && exists i :: 0 <= i < |replyTo| && !IsHexDigit(replyTo[i]) {
      var r := ObjectIDFromHex(replyTo);
      ObjectIDFromHexAccepts(replyTo);
      ObjectIDFromHexErrors(replyTo);
      var i :| 0 <= i < 24 && r.error == InvalidByteError(Utf8(replyTo)[i]) && !IsHexByte(Utf8(replyTo)[i])
               && forall j :: 0 <= j < i ==> IsHexByte(Utf8(replyTo)[j]);
      assert ThreadFor(mails, replyTo, newThreadID, findErr) == Err(InvalidByteError(Utf8(replyTo)[i]));
    }
    if replyTo != "" && IsObjectID(replyTo) {
      ObjectIDRoundTrip(replyTo);
      if 0 <= k < |mails| && replyTo == mails[k].id && (forall j :: 0 <= j < k ==> mails[j].id != replyTo) {
        FindFirst(mails, replyTo, k);
      }
    }
  }

  lemma {:induction false} FindFirst(mails: seq<Mail>, id: string, k: int)
    requires 0 <= k < |mails| && mails[k].id == id && forall j :: 0 <= j < k ==> mails[j].id != id
    ensures FindMail(mails, id) == Some(mails[k])
  {
    if k > 0 {
      FindFirst(mails[1..], id, k - 1);
    }
  }

  /** The sender's copy. */
  function SenderCopy(req: MailRequest, id: string, threadID: string, now: int): Mail {
    Mail(id, req.from, req.to, req.cc, req.bcc, req.subject, req.content,
         Sent, req.replyTo, threadID, req.from, now)
  }

  /** A recipient's copy. */
  function RecipientCopy(req: MailRequest, id: string, threadID: string, now: int, recipient: string): Mail {
    Mail(id, req.from, req.to, req.cc, req.bcc, req.subject, req.content,
         Received, req.replyTo, threadID, recipient, now)
  }

  /** The thread entry of the sender's copy, whose id it records. */
  function SenderEntry(req: MailRequest, msgID: string): ThreadMail {
    ThreadMail(req.from, msgID, req.subject, req.content, req.cc, req.to, req.bcc, Sent)
  }

  /** The recipients that get a copy: To, then Cc, then Bcc, without the
      sender, duplicates kept. */
  function Addressees(req: MailRequest): seq<string> {
    Without(req.to + req.cc + req.bcc, req.from)
  }

  /** Who gets a copy: every recipient other than the sender, as often as
      it is listed. */
  lemma AddresseesFacts(req: MailRequest)
    ensures req.from !in Addressees(req)
    ensures forall r :: r != req.from ==>
      multiset(Addressees(req))[r] == multiset(req.to)[r] + multiset(req.cc)[r] + multiset(req.bcc)[r]
  {
    WithoutContents(req.to + req.cc + req.bcc, req.from);
    assert multiset(req.to + req.cc + req.bcc) == multiset(req.to) + multiset(req.cc) + multiset(req.bcc);
  }

  /** The `k`-th write of `CreateMail`. */
  function PlannedWrite(req: MailRequest, rs: seq<string>, ids: seq<string>, threadID: string, now: int, k: int): Write
    requires |ids| == |rs| + 1 && 0 <= k < 2 * |rs| + 2
  {
    var entry := SenderEntry(req, ids[0]);
    if k == 0 then Write(InsertMail(SenderCopy(req, ids[0], threadID, now)), true)
    else if k == 1 then Write(PushThread(ThreadKey(ObjectIDOrNil(req.from), threadID), entry), true)
    else if k % 2 == 0 then Write(InsertMail(RecipientCopy(req, ids[k / 2], threadID, now, rs[k / 2 - 1])), true)
    else Write(PushThread(ThreadKey(ObjectIDOrNil(rs[k / 2 - 1]), threadID), entry.(mailType := Received)), true)
  }

  /** The writes `CreateMail` makes once the thread is chosen: the sender's
      copy and thread entry, then a copy and an entry per addressee. `ids`
      are the fresh ObjectIDs of the copies, the sender's first. */
  function CreatePlan(req: MailRequest, threadID: string, ids: seq<string>, now: int): (ws: seq<Write>)
    requires |ids| == |Addressees(req)| + 1
  {
    var rs := Addressees(req);
    seq(2 * |rs| + 2, k requires 0 <= k < 2 * |rs| + 2 => PlannedWrite(req, rs, ids, threadID, now, k))
  }

  /** The shape of the plan: the sender's copy comes first, each copy is
      followed by exactly one upsert of its owner's thread with the copy's
      type, all copies share the thread, content and time, and every error
      ends the operation. */
  lemma CreatePlanShape(req: MailRequest, threadID: string, ids: seq<string>, now: int)
    requires |ids| == |Addressees(req)| + 1
    ensures var ws := CreatePlan(req, threadID, ids, now);
      && |ws| == 2 * |Addressees(req)| + 2
      && ws[0].op == InsertMail(SenderCopy(req, ids[0], threadID, now))
      && (forall j :: 0 <= j < |Addressees(req)| ==>
            ws[2 * j + 2].op == InsertMail(RecipientCopy(req, ids[j + 1], threadID, now, Addressees(req)[j])))
      && (forall j :: 0 <= j <= |Addressees(req)| ==>
            && ws[2 * j].op.InsertMail?
            && ws[2 * j + 1].op == PushThread(ThreadKey(ObjectIDOrNil(ws[2 * j].op.mail.userID), threadID),
                                              SenderEntry(req, ids[0]).(mailType := ws[2 * j].op.mail.mailType)))
      && (forall k :: 0 <= k < |ws| ==> ws[k].aborts)
      && (forall k :: 0 <= k < |ws| && ws[k].op.InsertMail? ==>
            var m := ws[k].op.mail;
            && m.threadID == threadID && m.createdAt == now
            && m.subject == req.subject && m.content == req.content && m.from == req.from
            && (k == 0 <==> m.mailType == Sent))
  {
    PlanCopies(req, threadID, ids, now);
    PlanPushes(req, threadID, ids, now);
    PlanTypes(req, threadID, ids, now);
  }

  /** Write 2j + 2 inserts the copy of addressee j. */
  lemma PlanCopies(req: MailRequest, threadID: string, ids: seq<string>, now: int)
    requires |ids| == |Addressees(req)| + 1
    ensures var ws := CreatePlan(req, threadID, ids, now);
      forall j :: 0 <= j < |Addressees(req)| ==>
        ws[2 * j + 2].op == InsertMail(RecipientCopy(req, ids[j + 1], threadID, now, Addressees(req)[j]))
  {
    var ws := CreatePlan(req, threadID, ids, now);
    var rs := Addressees(req);
    forall j | 0 <= j < |rs|
      ensures ws[2 * j + 2].op == InsertMail(RecipientCopy(req, ids[j + 1], threadID, now, rs[j]))
    {
      assert (2 * j + 2) / 2 == j + 1 && (2 * j + 2) % 2 == 0;
    }
  }

  /** Each insert is followed by the upsert of its owner's thread. */
  lemma PlanPushes(req: MailRequest, threadID: string, ids: seq<string>, now: int)
    requires |ids| == |Addressees(req)| + 1
    ensures var ws := CreatePlan(req, threadID, ids, now);
      forall j :: 0 <= j <= |Addressees(req)| ==>
        && ws[2 * j].op.InsertMail?
        && ws[2 * j + 1].op == PushThread(ThreadKey(ObjectIDOrNil(ws[2 * j].op.mail.userID), threadID),
                                          SenderEntry(req, ids[0]).(mailType := ws[2 * j].op.mail.mailType))
  {
    var ws := CreatePlan(req, threadID, ids, now);
    var rs := Addressees(req);
    forall j | 0 <= j <= |rs|
      ensures && ws[2 * j].op.InsertMail?
              && ws[2 * j + 1].op == PushThread(ThreadKey(ObjectIDOrNil(ws[2 * j].op.mail.userID), threadID),
                                                SenderEntry(req, ids[0]).(mailType := ws[2 * j].op.mail.mailType))
    {
      if j > 0 {
        assert (2 * j) / 2 == j && (2 * j) % 2 == 0;
        assert (2 * j + 1) / 2 == j && (2 * j + 1) % 2 == 1;
      }
    }
  }

  /** Only the first insert is the sender's copy. */
  lemma PlanTypes(req: MailRequest, threadID: string, ids: seq<string>, now: int)
    requires |ids| == |Addressees(req)| + 1
    ensures var ws := CreatePlan(req, threadID, ids, now);
      forall k :: 0 <= k < |ws| && ws[k].op.InsertMail? ==> (k == 0 <==> ws[k].op.mail.mailType == Sent)
  {
    var ws := CreatePlan(req, threadID, ids, now);
    forall k | 0 <= k < |ws| && ws[k].op.InsertMail?
      ensures k == 0 <==> ws[k].op.mail.mailType == Sent
    {
      if k > 0 {
        assert k % 2 == 0;
      }
    }
  }

  /** If the sender's copy cannot be inserted, nothing is written and its
      error is returned; in particular no thread is touched. */
  lemma SenderInsertFails(s: StoreState, req: MailRequest, threadID: string, ids: seq<string>, now: int,
                          outs: seq<Option<string>>)
    requires |ids| == |Addressees(req)| + 1 && |outs| == 2 * |Addressees(req)| + 2
    requires outs[0].Some?
    ensures Perform(s, CreatePlan(req, threadID, ids, now), outs) == Outcome(s, outs[0])
  {
  }

  /** The copies `CreateMail` inserts, the sender's first. */
  function Copies(req: MailRequest, threadID: string, ids: seq<string>, now: int): seq<Mail>
    requires |ids| == |Addressees(req)| + 1
  {
    var rs := Addressees(req);
    [SenderCopy(req, ids[0], threadID, now)]
      + seq(|rs|, j requires 0 <= j < |rs| => RecipientCopy(req, ids[j + 1], threadID, now, rs[j]))
  }

  /** When every write succeeds, `mails` gains exactly the sender's copy and
      one copy per addressee, in order, and the threads stay consistent. */
  lemma CreateMailSucceeds(s: StoreState, req: MailRequest, threadID: string, ids: seq<string>, now: int,
                           outs: seq<Option<string>>)
    requires |ids| == |Addressees(req)| + 1 && |outs| == 2 * |Addressees(req)| + 2
    requires forall j :: 0 <= j < |outs| ==> outs[j].None?
    requires ThreadsConsistent(s.threads)
    ensures var r := Perform(s, CreatePlan(req, threadID, ids, now), outs);
      && r.err == None
      && r.state.mails == s.mails + Copies(req, threadID, ids, now)
      && ThreadsConsistent(r.state.threads)
  {
    var ws := CreatePlan(req, threadID, ids, now);
    var ops := seq(|ws|, j requires 0 <= j < |ws| => ws[j].op);
    PerformAppends(s, ws, outs);
    PerformAllSucceed(s, ws, outs);
    ApplyAllMails(s, ops);
    PlanInserts(req, threadID, ids, now);
  }

  /** The mails the plan inserts are the copies, in order. */
  lemma PlanInserts(req: MailRequest, threadID: string, ids: seq<string>, now: int)
    requires |ids| == |Addressees(req)| + 1
    ensures var ws := CreatePlan(req, threadID, ids, now);
      Inserted(seq(|ws|, j requires 0 <= j < |ws| => ws[j].op)) == Copies(req, threadID, ids, now)
  {
    var ws := CreatePlan(req, threadID, ids, now);
    var rs := Addressees(req);
    var ops := seq(|ws|, j requires 0 <= j < |ws| => ws[j].op);
    var copies := Copies(req, threadID, ids, now);
    forall j | 0 <= j < |rs| + 1
      ensures ops[2 * j].InsertMail? && ops[2 * j + 1].PushThread?
      ensures ops[2 * j].mail == copies[j]
    {
      if j > 0 {
        NextPair(req, rs, ids, threadID, now, j - 1);
      }
    }
    PairsInserted(ops, |rs| + 1);
    assert seq(|rs| + 1, j requires 0 <= j < |rs| + 1 => ops[2 * j].mail) == copies;
  }

  /** One copy and its thread entry: the two writes `plan[k]` and
      `plan[k + 1]`, each ending the run when it fails. */
  method WritePair(store: Store, m: Mail, key: ThreadKey, entry: ThreadMail,
                   ghost plan: seq<Write>, outs: seq<Option<string>>, k: nat) returns (err: Option<string>)
    requires k + 2 <= |plan| == |outs|
    requires plan[k] == Write(InsertMail(m), true) && plan[k + 1] == Write(PushThread(key, entry), true)
    modifies store
    ensures err.Some? ==> Outcome(store.State(), err) == Perform(old(store.State()), plan[k..], outs[k..])
    ensures err.None? ==>
      Perform(store.State(), plan[k + 2..], outs[k + 2..]) == Perform(old(store.State()), plan[k..], outs[k..])
  {
    err := store.InsertOne(m, outs[k]);
    if err.Some? {
      return;
    }
    assert plan[k..][1..] == plan[k + 1..] && outs[k..][1..] == outs[k + 1..];
    err := store.UpdateThread(key, entry, outs[k + 1]);
    if err.Some? {
      return;
    }
    assert plan[k + 1..][1..] == plan[k + 2..] && outs[k + 1..][1..] == outs[k + 2..];
  }

  /** `CreateMail`: chooses the thread, returning any error there before a
      write; writes the sender's copy and thread entry, then for every
      recipient in To, Cc, Bcc order other than the sender a copy and its
      thread entry; the first failing write ends it with that error,
      leaving the earlier writes in place. */
  method CreateMail(store: Store, req: MailRequest, newThreadID: string, findErr: Option<string>,
                    ids: seq<string>, now: int, outs: seq<Option<string>>) returns (err: Option<string>)
    requires |ids| == |Addressees(req)| + 1 && |outs| == 2 * |Addressees(req)| + 2
    modifies store
    ensures var t := ThreadFor(old(store.mails), req.replyTo, newThreadID, findErr);
      && (t.Err? ==> err == Some(t.error) && store.State() == old(store.State()))
      && (t.Ok? ==> Outcome(store.State(), err) == Perform(old(store.State()), CreatePlan(req, t.value, ids, now), outs))
  {
    var threadID: string;
    if req.replyTo != "" {
      var objID := ObjectIDFromHex(req.replyTo);
      if objID.Err? {
        return Some(objID.error);
      }
      if findErr.Some? {
        return findErr;
      }
      var original := FindMail(store.mails, objID.value);
      if original.None? {
        return Some(ErrNoDocuments);
      }
      threadID := original.value.threadID;
    } else {
      threadID := newThreadID;
    }
    ghost var plan := CreatePlan(req, threadID, ids, now);
    var senderMail := SenderCopy(req, ids[0], threadID, now);
    var entry := SenderEntry(req, senderMail.id);
    err := WritePair(store, senderMail, ThreadKey(ObjectIDOrNil(req.from), threadID), entry, plan, outs, 0);
    if err.Some? {
      return;
    }
    PlanRecipientWrites(req, threadID, ids, now);
    err := WriteRecipients(store, req, threadID, ids, now, entry, plan, outs);
  }

  /** The loop of `CreateMail` over To, Cc and Bcc: every recipient other
      than the sender gets a copy and a thread entry, until a write fails. */
  method WriteRecipients(store: Store, req: MailRequest, threadID: string, ids: seq<string>, now: int,
                         entry: ThreadMail, ghost plan: seq<Write>, outs: seq<Option<string>>)
    returns (err: Option<string>)
    requires |ids| == |Addressees(req)| + 1 && |outs| == 2 * |Addressees(req)| + 2
    requires |plan| == |outs| && RecipientWrites(req, threadID, ids, now, plan) && entry == SenderEntry(req, ids[0])
    modifies store
    ensures Outcome(store.State(), err) == Perform(old(store.State()), plan[2..], outs[2..])
  {
    ghost var rs := Addressees(req);
    var allRecipients := req.to + req.cc + req.bcc;
    var written := 0;
    var i := 0;
    while i < |allRecipients|
      invariant 0 <= i <= |allRecipients|
      invariant written == |Without(allRecipients[..i], req.from)| <= |rs|
      invariant Perform(old(store.State()), plan[2..], outs[2..])
             == Perform(store.State(), plan[2 + 2 * written..], outs[2 + 2 * written..])
    {
      NextKept(allRecipients, i, req.from);
      var next;
      err, next := WriteRecipient(store, req, threadID, ids, now, entry, plan, outs, allRecipients[i], written);
      if err.Some? {
        return;
      }
      written := next;
      i := i + 1;
    }
    assert allRecipients[..i] == allRecipients;
    err := None;
  }

  /** One step of the loop of `CreateMail`: the sender is skipped, any other
      recipient gets the next copy and thread entry. */
  method WriteRecipient(store: Store, req: MailRequest, threadID: string, ids: seq<string>, now: int,
                        entry: ThreadMail, ghost plan: seq<Write>, outs: seq<Option<string>>,
                        recipientID: string, written: nat)
    returns (err: Option<string>, next: nat)
    requires |ids| == |Addressees(req)| + 1 && |outs| == 2 * |Addressees(req)| + 2
    requires |plan| == |outs| && RecipientWrites(req, threadID, ids, now, plan) && entry == SenderEntry(req, ids[0])
    requires written <= |Addressees(req)|
    requires recipientID != req.from ==> written < |Addressees(req)| && Addressees(req)[written] == recipientID
    modifies store
    ensures err.Some? ==> Outcome(store.State(), err) == Perform(old(store.State()), plan[2 + 2 * written..], outs[2 + 2 * written..])
    ensures err.None? ==> next == (if recipientID == req.from then written else written + 1)
    ensures err.None? ==>
      Perform(store.State(), plan[2 + 2 * next..], outs[2 + 2 * next..])
        == Perform(old(store.State()), plan[2 + 2 * written..], outs[2 + 2 * written..])
  {
    next := written;
    err := None;
    if recipientID != req.from {
      var recipientMail := RecipientCopy(req, ids[1 + written], threadID, now, recipientID);
      err := WritePair(store, recipientMail, ThreadKey(ObjectIDOrNil(recipientID), threadID),
                       entry.(mailType := Received), plan, outs, 2 + 2 * written);
      next := written + 1;
    }
  }

  /** The writes of `plan` after the sender's: a copy and a thread entry
      per addressee. */
  predicate RecipientWrites(req: MailRequest, threadID: string, ids: seq<string>, now: int, plan: seq<Write>)
    requires |ids| == |Addressees(req)| + 1 && |plan| == 2 * |Addressees(req)| + 2
  {
    forall j :: 0 <= j < |Addressees(req)| ==>
      && plan[2 + 2 * j] == Write(InsertMail(RecipientCopy(req, ids[1 + j], threadID, now, Addressees(req)[j])), true)
      && plan[3 + 2 * j] == Write(PushThread(ThreadKey(ObjectIDOrNil(Addressees(req)[j]), threadID),
                                           SenderEntry(req, ids[0]).(mailType := Received)), true)
  }

  lemma PlanRecipientWrites(req: MailRequest, threadID: string, ids: seq<string>, now: int)
    requires |ids| == |Addressees(req)| + 1
    ensures RecipientWrites(req, threadID, ids, now, CreatePlan(req, threadID, ids, now))
  {
    forall j | 0 <= j < |Addressees(req)| {
      NextPair(req, Addressees(req), ids, threadID, now, j);
    }
  }

  /** The two writes for the `j`-th addressee. */
  lemma NextPair(req: MailRequest, rs: seq<string>, ids: seq<string>, threadID: string, now: int, j: int)
    requires rs == Addressees(req) && |ids| == |rs| + 1 && 0 <= j < |rs|
    ensures var ws := CreatePlan(req, threadID, ids, now);
      && ws[2 + 2 * j] == Write(InsertMail(RecipientCopy(req, ids[1 + j], threadID, now, rs[j])), true)
      && ws[3 + 2 * j] == Write(PushThread(ThreadKey(ObjectIDOrNil(rs[j]), threadID),
                                           SenderEntry(req, ids[0]).(mailType := Received)), true)
  {
    var k := 2 + 2 * j;
    assert k / 2 == j + 1 && k % 2 == 0;
    assert (k + 1) / 2 == j + 1 && (k + 1) % 2 == 1;
    assert CreatePlan(req, threadID, ids, now)[k] == PlannedWrite(req, rs, ids, threadID, now, k);
    assert CreatePlan(req, threadID, ids, now)[k + 1] == PlannedWrite(req, rs, ids, threadID, now, k + 1);
  }

  /** The options of a `Find`: results are always newest first. */
  datatype FindOptions = FindOptions(limit: Option<nat>, skip: Option<nat>)

  /** `ListMails`: a limit and an offset are passed on only when positive. */
  function ListOptions(req: ListMailsRequest): FindOptions {
    FindOptions(if req.limit > 0 then Some(req.limit) else None,
                if req.offset > 0 then Some(req.offset) else None)
  }

  /** `SearchMails`: a limit is passed on only when positive; no offset. */
  function SearchOptions(req: SearchMailsRequest): FindOptions {
    FindOptions(if req.limit > 0 then Some(req.limit) else None, None)
  }

  /** What a `Find` with these options returns from the matching documents,
      already in order. */
  function Page<T>(docs: seq<T>, opts: FindOptions): (r: seq<T>)
    ensures opts.limit.Some? ==> |r| <= opts.limit.value
    ensures opts.limit.None? && opts.skip.None? ==> r == docs
  {
    var rest := if opts.skip.Some? && opts.skip.value < |docs| then docs[opts.skip.value..]
                else if opts.skip.Some? then [] else docs;
    if opts.limit.Some? && opts.limit.value < |rest| then rest[..opts.limit.value] else rest
  }

  /** The copies owned by `userID`, the documents the filter
      `{"userId": userID}` matches: all of them and nothing else. */
  function OwnedBy(mails: seq<Mail>, userID: string): (r: seq<Mail>)
    ensures forall k :: 0 <= k < |r| ==> r[k].userID == userID && r[k] in mails
    ensures forall m :: m in mails && m.userID == userID ==> m in r
  {
    if |mails| == 0 then []
    else OwnedBy(mails[..|mails| - 1], userID) + (if mails[|mails| - 1].userID == userID then [mails[|mails| - 1]] else [])
  }

  /** A page holds only documents of the query. */
  lemma {:induction false} PageWithin<T>(docs: seq<T>, opts: FindOptions, x: T)
    requires x in Page(docs, opts)
    ensures x in docs
  {
    var rest := if opts.skip.Some? && opts.skip.value < |docs| then docs[opts.skip.value..]
                else if opts.skip.Some? then [] else docs;
    var i :| 0 <= i < |Page(docs, opts)| && Page(docs, opts)[i] == x;
    if opts.skip.Some? && opts.skip.value < |docs| {
      assert rest[i] == docs[opts.skip.value + i];
    }
  }

  /** `ListMails` over `matching`, the user's copies in newest-first
      order: a non-positive limit or offset is not passed on, so the call
      returns every copy from the start; a positive limit bounds the result. */
  lemma ListMailsGating(matching: seq<Mail>, req: ListMailsRequest)
    ensures req.limit <= 0 && req.offset <= 0 ==> Page(matching, ListOptions(req)) == matching
    ensures req.limit > 0 ==> |Page(matching, ListOptions(req))| <= req.limit
    ensures var skip := if req.offset > 0 then req.offset else 0;
      var page := Page(matching, ListOptions(req));
      && (forall k :: 0 <= k < |page| ==> skip + k < |matching| && page[k] == matching[skip + k])
      && |page| == (if req.limit > 0 then Min(req.limit, Max0(|matching| - skip)) else Max0(|matching| - skip))
  {
    var skip := if req.offset > 0 then req.offset else 0;
    var rest := if skip < |matching| then matching[skip..] else [];
    assert |rest| == Max0(|matching| - skip);
    assert forall k :: 0 <= k < |rest| ==> rest[k] == matching[skip + k];
    assert Page(matching, ListOptions(req)) == if req.limit > 0 && req.limit < |rest| then rest[..req.limit] else rest;
  }

  /** When `matching` holds the copies the filter `{"userId": ...}` selects
      from the store `mails`, `ListMails` returns only copies the user owns,
      and without a limit or offset every one of them. */
  lemma ListMailsOwned(mails: seq<Mail>, matching: seq<Mail>, req: ListMailsRequest)
    requires multiset(matching) == multiset(OwnedBy(mails, req.userID))
    ensures forall m :: m in Page(matching, ListOptions(req)) ==> m in mails && m.userID == req.userID
    ensures req.limit <= 0 && req.offset <= 0 ==>
      forall m :: m in mails && m.userID == req.userID ==> m in Page(matching, ListOptions(req))
  {
    forall m | m in Page(matching, ListOptions(req)) ensures m in mails && m.userID == req.userID {
      PageWithin(matching, ListOptions(req), m);
      assert m in multiset(OwnedBy(mails, req.userID));
    }
    if req.limit <= 0 && req.offset <= 0 {
      ListMailsGating(matching, req);
      forall m | m in mails && m.userID == req.userID ensures m in matching {
        assert m in multiset(matching);
      }
    }
  }

  /** `SearchMails` over `matching`, the user's copies whose subject or
      content match the term: it never skips, a positive limit bounds the
      result, and whatever is returned is a copy the user owns. */
  lemma SearchMailsGating(mails: seq<Mail>, matching: seq<Mail>, req: SearchMailsRequest)
    requires forall m :: m in matching ==> m in OwnedBy(mails, req.userID)
    ensures SearchOptions(req).skip.None?
    ensures req.limit <= 0 ==> Page(matching, SearchOptions(req)) == matching
    ensures req.limit > 0 ==> |Page(matching, SearchOptions(req))| <= req.limit
    ensures forall m :: m in Page(matching, SearchOptions(req)) ==> m in mails && m.userID == req.userID
  {
    forall m | m in Page(matching, SearchOptions(req)) ensures m in mails && m.userID == req.userID {
      PageWithin(matching, SearchOptions(req), m);
    }
  }

  function Min(a: int, b: int): int {
    if a < b then a else b
  }

  function Max0(a: int): nat {
    if a < 0 then 0 else a
  }
}
