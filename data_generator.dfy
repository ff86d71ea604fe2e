/**
  The seeding `DataGenerator` of generator/data_generator.go: synthetic
  mails, the thread fan-out of one seeded mail, and the seeding loop.
  `math/rand`, `primitive.NewObjectID` and `time.Now` become explicit
  draws, fresh ids and a clock reading passed in by the caller.
*/
module DataGenerator {
  import opened Wrappers
  import opened Models
  import opened GoStrings
  import opened Vocabulary
  import opened Durations
  import opened MailStore

  /** `rand.Intn(365*24)`: the age in hours of a generated mail is below this. */
  const MaxHoursAgo: nat := 365 * 24

  /** The draws of one `GenerateMail`: the subject, the template, the subject
      the template is filled with (drawn again, independently) and the age. */
  datatype MailDraws = MailDraws(subjectIdx: nat, templateIdx: nat, contentSubjectIdx: nat, hoursAgo: nat)

  predicate ValidMailDraws(d: MailDraws) {
    d.subjectIdx < |Subjects| && d.templateIdx < |ContentTemplates|
    && d.contentSubjectIdx < |Subjects| && d.hoursAgo < MaxHoursAgo
  }

  /** `GenerateMail`: a mail with no sender, recipients or reply, of the zero
      type, dated `hoursAgo` whole hours before `now`. */
  function GenerateMail(userID: string, threadID: string, id: string, now: int, d: MailDraws): Mail
    requires ValidMailDraws(d)
  {
    Mail(id, "", [], [], [], Subjects[d.subjectIdx],
         Fill(ContentTemplates[d.templateIdx], Subjects[d.contentSubjectIdx]),
         Received, "", threadID, userID, now - d.hoursAgo * Hour)
  }

  /** What a generated mail looks like: owned by `userID` in `threadID`,
      with a listed subject, a content that names a listed subject (not
      necessarily its own), and a date in the year up to `now`, on a whole
      hour from it. */
  lemma GenerateMailFacts(userID: string, threadID: string, id: string, now: int, d: MailDraws)
    requires ValidMailDraws(d)
    ensures var m := GenerateMail(userID, threadID, id, now, d);
      && m.id == id && m.userID == userID && m.threadID == threadID
      && m.subject in Subjects
      && (exists k :: 0 <= k < |Subjects| && Contains(m.content, Subjects[k]))
      && now - MaxHoursAgo * Hour < m.createdAt <= now
      && (now - m.createdAt) % Hour == 0
      && m.from == "" && m.to == [] && m.mailType == Received
  {
    var m := GenerateMail(userID, threadID, id, now, d);
    FillContainsSubject(ContentTemplates[d.templateIdx], Subjects[d.contentSubjectIdx]);
    AgeBound(d.hoursAgo);
    assert now - m.createdAt == d.hoursAgo * Hour;
  }

  lemma AgeBound(h: nat)
    requires h < MaxHoursAgo
    ensures 0 <= h * Hour < MaxHoursAgo * Hour && (h * Hour) % Hour == 0
  {
    assert Hour == 3_600_000_000_000;
  }

  /** A recipient's copy of the sender's mail: the same subject, content and
      date, in the same thread, with no other field set. */
  function RecipientCopy(sender: Mail, id: string, recipientID: string): Mail {
    Mail(id, "", [], [], [], sender.subject, sender.content, Received, "", sender.threadID, recipientID, sender.createdAt)
  }

  /** The thread entry: the sender, the sender's copy and the recipients. */
  function Entry(senderID: string, senderMail: Mail, recipients: seq<string>): ThreadMail {
    ThreadMail(senderID, senderMail.id, senderMail.subject, senderMail.content, [], recipients, [], Sent)
  }

  /** The `k`-th write of `CreateMailWithThread`. Only a failed insert ends
      the run: `updateThread`'s error is dropped. */
  function SeedWrite(senderID: string, recipients: seq<string>, senderMail: Mail, ids: seq<string>, k: int): Write
    requires |ids| == |recipients| + 1 && 0 <= k < 2 * |recipients| + 2
  {
    var entry := Entry(senderID, senderMail, recipients);
    if k == 0 then Write(InsertMail(senderMail), true)
    else if k == 1 then Write(PushThread(ThreadKey(ObjectIDOrNil(senderID), senderMail.threadID), entry), false)
    else if k % 2 == 0 then Write(InsertMail(RecipientCopy(senderMail, ids[k / 2], recipients[k / 2 - 1])), true)
    else Write(PushThread(ThreadKey(ObjectIDOrNil(recipients[k / 2 - 1]), senderMail.threadID),
                          entry.(mailType := Received)), false)
  }

  /** The writes of `CreateMailWithThread` for the sender's copy `senderMail`
      (already generated) and `ids`, the ids of the copies, the sender's first. */
  function SeedPlan(senderID: string, recipients: seq<string>, senderMail: Mail, ids: seq<string>): seq<Write>
    requires |ids| == |recipients| + 1
  {
    seq(2 * |recipients| + 2, k requires 0 <= k < 2 * |recipients| + 2 => SeedWrite(senderID, recipients, senderMail, ids, k))
  }

  /** The two writes for recipient `j`. */
  lemma SeedPair(senderID: string, recipients: seq<string>, senderMail: Mail, ids: seq<string>, j: int)
    requires |ids| == |recipients| + 1 && 0 <= j < |recipients|
    ensures var ws := SeedPlan(senderID, recipients, senderMail, ids);
      && ws[2 + 2 * j] == Write(InsertMail(RecipientCopy(senderMail, ids[1 + j], recipients[j])), true)
      && ws[3 + 2 * j] == Write(PushThread(ThreadKey(ObjectIDOrNil(recipients[j]), senderMail.threadID),
                                           Entry(senderID, senderMail, recipients).(mailType := Received)), false)
  {
    var k := 2 + 2 * j;
    assert k / 2 == j + 1 && k % 2 == 0;
    assert (k + 1) / 2 == j + 1 && (k + 1) % 2 == 1;
    assert SeedPlan(senderID, recipients, senderMail, ids)[k] == SeedWrite(senderID, recipients, senderMail, ids, k);
    assert SeedPlan(senderID, recipients, senderMail, ids)[k + 1] == SeedWrite(senderID, recipients, senderMail, ids, k + 1);
  }

  /** The copies a seeded mail inserts, the sender's first. */
  function SeedCopies(recipients: seq<string>, senderMail: Mail, ids: seq<string>): seq<Mail>
    requires |ids| == |recipients| + 1
  {
    [senderMail] + seq(|recipients|, j requires 0 <= j < |recipients| => RecipientCopy(senderMail, ids[j + 1], recipients[j]))
  }

  /** Thread errors never stop the fan-out: when every insert succeeds, the
      run succeeds and `mails` gains every copy in order, whatever the
      upserts return. */
  lemma SeedThreadErrorsDropped(s: StoreState, senderID: string, recipients: seq<string>, senderMail: Mail,
                                ids: seq<string>, outs: seq<Option<string>>)
    requires |ids| == |recipients| + 1 && |outs| == 2 * |recipients| + 2
    requires forall j :: 0 <= j <= |recipients| ==> outs[2 * j].None?
    ensures var r := Perform(s, SeedPlan(senderID, recipients, senderMail, ids), outs);
      r.err == None && r.state.mails == s.mails + SeedCopies(recipients, senderMail, ids)
  {
    var ws := SeedPlan(senderID, recipients, senderMail, ids);
    SeedWritesTolerated(senderID, recipients, senderMail, ids, outs);
    InsertsDespiteDroppedErrors(s, ws, outs);
    SeedInserted(senderID, recipients, senderMail, ids);
  }

  /** The seed plan's ops alternate insert and upsert, and the inserts are
      the copies in order. */
  lemma SeedInserted(senderID: string, recipients: seq<string>, senderMail: Mail, ids: seq<string>)
    requires |ids| == |recipients| + 1
    ensures Inserted(Ops(SeedPlan(senderID, recipients, senderMail, ids))) == SeedCopies(recipients, senderMail, ids)
  {
    var ops := Ops(SeedPlan(senderID, recipients, senderMail, ids));
    var copies := SeedCopies(recipients, senderMail, ids);
    forall j | 0 <= j < |recipients| + 1
      ensures ops[2 * j].InsertMail? && ops[2 * j + 1].PushThread?
      ensures ops[2 * j].mail == copies[j]
    {
      if j > 0 {
        SeedPair(senderID, recipients, senderMail, ids, j - 1);
      }
    }
    PairsInserted(ops, |recipients| + 1);
    assert seq(|recipients| + 1, j requires 0 <= j < |recipients| + 1 => ops[2 * j].mail) == copies;
  }

  /** With every insert succeeding, every write of the seed plan is one
      the run carries on after: the upserts never end it. */
  lemma SeedWritesTolerated(senderID: string, recipients: seq<string>, senderMail: Mail,
                            ids: seq<string>, outs: seq<Option<string>>)
    requires |ids| == |recipients| + 1 && |outs| == 2 * |recipients| + 2
    requires forall j :: 0 <= j <= |recipients| ==> outs[2 * j].None?
    ensures var ws := SeedPlan(senderID, recipients, senderMail, ids);
      forall k :: 0 <= k < |ws| ==> (ws[k].op.InsertMail? ==> outs[k].None?) && (ws[k].op.PushThread? ==> !ws[k].aborts)
  {
    var ws := SeedPlan(senderID, recipients, senderMail, ids);
    forall k | 0 <= k < |ws|
      ensures (ws[k].op.InsertMail? ==> outs[k].None?) && (ws[k].op.PushThread? ==> !ws[k].aborts)
    {
      assert ws[k] == SeedWrite(senderID, recipients, senderMail, ids, k);
      if k % 2 == 0 {
        assert k == 2 * (k / 2) && k / 2 <= |recipients|;
      }
    }
  }

  /** Every copy of a seeded mail shares its subject, content, date and
      thread; the sender's copy is first and each copy's owner gets one
      thread entry. */
  lemma SeedPlanShape(senderID: string, recipients: seq<string>, senderMail: Mail, ids: seq<string>)
    requires |ids| == |recipients| + 1
    ensures var ws := SeedPlan(senderID, recipients, senderMail, ids);
      && ws[0].op == InsertMail(senderMail)
      && forall j :: 0 <= j < |recipients| ==>
           && ws[2 * j + 2].op.InsertMail?
           && ws[2 * j + 2].op.mail.userID == recipients[j]
           && ws[2 * j + 2].op.mail.subject == senderMail.subject
           && ws[2 * j + 2].op.mail.content == senderMail.content
           && ws[2 * j + 2].op.mail.createdAt == senderMail.createdAt
           && ws[2 * j + 2].op.mail.threadID == senderMail.threadID
           && ws[2 * j + 3].op == PushThread(ThreadKey(ObjectIDOrNil(recipients[j]), senderMail.threadID),
                                             Entry(senderID, senderMail, recipients).(mailType := Received))
  {
    forall j | 0 <= j < |recipients| {
      SeedPair(senderID, recipients, senderMail, ids, j);
    }
  }

  /** A copy and its thread entry, `plan[k]` and `plan[k + 1]`: a failed
      insert ends the run, the upsert's error is dropped. */
  method WriteCopy(store: Store, m: Mail, key: ThreadKey, entry: ThreadMail,
                   ghost plan: seq<Write>, outs: seq<Option<string>>, k: nat) returns (err: Option<string>)
    requires k + 2 <= |plan| == |outs|
    requires plan[k] == Write(InsertMail(m), true) && plan[k + 1] == Write(PushThread(key, entry), false)
    modifies store
    ensures err.Some? ==> Outcome(store.State(), err) == Perform(old(store.State()), plan[k..], outs[k..])
    ensures err.None? ==>
      Perform(store.State(), plan[k + 2..], outs[k + 2..]) == Perform(old(store.State()), plan[k..], outs[k..])
  {
    err := store.InsertOne(m, outs[k]);
    if err.Some? {
      return;
    }
    assert plan[k..][1..] == plan[k + 1..] && outs[k..][1..] == outs[k + 1..];
    var dropped := store.UpdateThread(key, entry, outs[k + 1]);
    assert plan[k + 1..][1..] == plan[k + 2..] && outs[k + 1..][1..] == outs[k + 2..];
  }

  /** `CreateMailWithThread` on a fresh thread id, given the sender copy's
      draws, the copies' ids and one outcome per write. */
  method CreateMailWithThread(store: Store, senderID: string, recipients: seq<string>, threadID: string,
                              ids: seq<string>, now: int, d: MailDraws, outs: seq<Option<string>>)
    returns (err: Option<string>)
    requires ValidMailDraws(d) && |ids| == |recipients| + 1 && |outs| == 2 * |recipients| + 2
    modifies store
    ensures Outcome(store.State(), err)
         == Perform(old(store.State()), SeedPlan(senderID, recipients, GenerateMail(senderID, threadID, ids[0], now, d), ids), outs)
  {
    var senderMail := GenerateMail(senderID, threadID, ids[0], now, d);
    ghost var plan := SeedPlan(senderID, recipients, senderMail, ids);
    var threadMail := Entry(senderID, senderMail, recipients);
    err := WriteCopy(store, senderMail, ThreadKey(ObjectIDOrNil(senderID), threadID), threadMail, plan, outs, 0);
    if err.Some? {
      return;
    }
    err := WriteRecipientCopies(store, senderID, recipients, senderMail, ids, plan, outs);
  }

  /** The loop of `CreateMailWithThread` over the recipients. */
  method WriteRecipientCopies(store: Store, senderID: string, recipients: seq<string>, senderMail: Mail,
                              ids: seq<string>, ghost plan: seq<Write>, outs: seq<Option<string>>)
    returns (err: Option<string>)
    requires |ids| == |recipients| + 1 && |outs| == 2 * |recipients| + 2
    requires plan == SeedPlan(senderID, recipients, senderMail, ids)
    modifies store
    ensures Outcome(store.State(), err) == Perform(old(store.State()), plan[2..], outs[2..])
  {
    var threadMail := Entry(senderID, senderMail, recipients);
    var j := 0;
    while j < |recipients|
      invariant 0 <= j <= |recipients|
      invariant Perform(old(store.State()), plan[2..], outs[2..]) == Perform(store.State(), plan[2 + 2 * j..], outs[2 + 2 * j..])
    {
      var recipientID := recipients[j];
      SeedPair(senderID, recipients, senderMail, ids, j);
      var recipientMail := RecipientCopy(senderMail, ids[1 + j], recipientID);
      var key := ThreadKey(ObjectIDOrNil(recipientID), senderMail.threadID);
      var k := 2 + 2 * j;
      assert plan[k] == Write(InsertMail(recipientMail), true);
      assert plan[k + 1] == Write(PushThread(key, threadMail.(mailType := Received)), false);
      err := WriteCopy(store, recipientMail, key, threadMail.(mailType := Received), plan, outs, k);
      if err.Some? {
        return;
      }
      j := j + 1;
    }
    err := None;
  }

  /** The draws of one round of `SeedData`: the sender, the recipient slots
      (`rand.Intn(5) + 1` of them), the new thread, the sender copy's draws,
      the copies' ids, the clock and one outcome per write. */
  datatype SeedRound = SeedRound(
    senderIdx: nat,
    recipientIdxs: seq<nat>,
    threadID: string,
    mail: MailDraws,
    ids: seq<string>,
    now: int,
    outs: seq<Option<string>>)

  /** The recipients of a round: the drawn users, in order, except where the
      draw hit the sender's index; a user drawn twice is listed twice. */
  function RoundRecipients(userIDs: seq<string>, senderIdx: nat, idxs: seq<nat>): (rs: seq<string>)
    requires forall k :: 0 <= k < |idxs| ==> idxs[k] < |userIDs|
    ensures |rs| <= |idxs|
  {
    if |idxs| == 0 then []
    else
      var last := idxs[|idxs| - 1];
      RoundRecipients(userIDs, senderIdx, idxs[..|idxs| - 1]) + (if last != senderIdx then [userIDs[last]] else [])
  }

  /** With distinct user ids, a sender never receives its own mail, and
      every recipient is a user. */
  lemma {:induction false} RoundRecipientsFacts(userIDs: seq<string>, senderIdx: nat, idxs: seq<nat>)
    requires senderIdx < |userIDs|
    requires forall k :: 0 <= k < |idxs| ==> idxs[k] < |userIDs|
    requires forall a, b :: 0 <= a < b < |userIDs| ==> userIDs[a] != userIDs[b]
    ensures forall r :: r in RoundRecipients(userIDs, senderIdx, idxs) ==> r in userIDs && r != userIDs[senderIdx]
  {
    if |idxs| > 0 {
      RoundRecipientsFacts(userIDs, senderIdx, idxs[..|idxs| - 1]);
    }
  }

  /** The draws are ones `math/rand` and the database can produce. */
  predicate ValidRound(userIDs: seq<string>, r: SeedRound) {
    && r.senderIdx < |userIDs|
    && 1 <= |r.recipientIdxs| <= 5
    && (forall k :: 0 <= k < |r.recipientIdxs| ==> r.recipientIdxs[k] < |userIDs|)
    && ValidMailDraws(r.mail)
    && |r.ids| == |RoundRecipients(userIDs, r.senderIdx, r.recipientIdxs)| + 1
    && |r.outs| == 2 * |RoundRecipients(userIDs, r.senderIdx, r.recipientIdxs)| + 2
  }

  /** What `SeedData` does with its rounds: a round without recipients
      writes nothing; any other creates one threaded mail; the first error
      ends the seeding. */
  function Seed(s: StoreState, userIDs: seq<string>, rounds: seq<SeedRound>): Outcome
    requires forall i :: 0 <= i < |rounds| ==> ValidRound(userIDs, rounds[i])
    decreases |rounds|
  {
    if |rounds| == 0 then Outcome(s, None)
    else
      var r := rounds[0];
      assert ValidRound(userIDs, r);
      var rs := RoundRecipients(userIDs, r.senderIdx, r.recipientIdxs);
      assert forall i :: 0 <= i < |rounds[1..]| ==> ValidRound(userIDs, rounds[1..][i]) by {
        assert forall i :: 0 <= i < |rounds[1..]| ==> rounds[1..][i] == rounds[i + 1];
      }
      if |rs| == 0 then Seed(s, userIDs, rounds[1..])
      else
        var senderID := userIDs[r.senderIdx];
        var o := Perform(s, SeedPlan(senderID, rs, GenerateMail(senderID, r.threadID, r.ids[0], r.now, r.mail), r.ids), r.outs);
        if o.err.Some? then o else Seed(o.state, userIDs, rounds[1..])
  }

  /** Seeding only ever appends mails, and keeps every thread's count equal
      to its number of entries. */
  lemma {:induction false} SeedAppends(s: StoreState, userIDs: seq<string>, rounds: seq<SeedRound>)
    requires forall i :: 0 <= i < |rounds| ==> ValidRound(userIDs, rounds[i])
    requires ThreadsConsistent(s.threads)
    ensures var t := Seed(s, userIDs, rounds).state;
      |s.mails| <= |t.mails| && t.mails[..|s.mails|] == s.mails && ThreadsConsistent(t.threads)
    decreases |rounds|
  {
    if |rounds| > 0 {
      var r := rounds[0];
      var rs := RoundRecipients(userIDs, r.senderIdx, r.recipientIdxs);
      if |rs| == 0 {
        SeedAppends(s, userIDs, rounds[1..]);
      } else {
        var senderID := userIDs[r.senderIdx];
        var ws := SeedPlan(senderID, rs, GenerateMail(senderID, r.threadID, r.ids[0], r.now, r.mail), r.ids);
        var o := Perform(s, ws, r.outs);
        PerformAppends(s, ws, r.outs);
        if o.err.None? {
          SeedAppends(o.state, userIDs, rounds[1..]);
          var t := Seed(o.state, userIDs, rounds[1..]).state;
          assert t.mails[..|s.mails|] == t.mails[..|o.state.mails|][..|s.mails|];
        }
      }
    }
  }

  /** The recipients of one round, drawn as the inner loop of `SeedData` does. */
  method PickRecipients(userIDs: seq<string>, senderIdx: nat, idxs: seq<nat>) returns (recipients: seq<string>)
    requires forall k :: 0 <= k < |idxs| ==> idxs[k] < |userIDs|
    ensures recipients == RoundRecipients(userIDs, senderIdx, idxs)
  {
    recipients := [];
    var j := 0;
    while j < |idxs|
      invariant 0 <= j <= |idxs|
      invariant recipients == RoundRecipients(userIDs, senderIdx, idxs[..j])
    {
      var recipientIdx := idxs[j];
      if recipientIdx != senderIdx {
        recipients := recipients + [userIDs[recipientIdx]];
      }
      assert idxs[..j + 1][..j] == idxs[..j];
      j := j + 1;
    }
    assert idxs[..j] == idxs;
  }

  /** `SeedData`: `userIDs` are the `numUsers` fresh ids and `rounds` the
      draws of the `mailsPerUser` rounds. `rand.Intn(numUsers)` panics
      unless `numUsers` is positive, so a seeding with rounds needs users. */
  method SeedData(store: Store, numUsers: int, mailsPerUser: int, userIDs: seq<string>, rounds: seq<SeedRound>)
    returns (err: Option<string>)
    requires numUsers >= 0 && |userIDs| == numUsers
    requires mailsPerUser > 0 ==> numUsers > 0
    requires |rounds| == (if mailsPerUser > 0 then mailsPerUser else 0)
    requires forall i :: 0 <= i < |rounds| ==> ValidRound(userIDs, rounds[i])
    modifies store
    ensures Outcome(store.State(), err) == Seed(old(store.State()), userIDs, rounds)
  {
    var i := 0;
    while i < mailsPerUser
      invariant 0 <= i <= |rounds|
      invariant i < mailsPerUser ==> i < |rounds|
      invariant Seed(old(store.State()), userIDs, rounds) == Seed(store.State(), userIDs, rounds[i..])
    {
      var r := rounds[i];
      assert rounds[i..][0] == r && rounds[i..][1..] == rounds[i + 1..];
      var recipients := PickRecipients(userIDs, r.senderIdx, r.recipientIdxs);
      if |recipients| > 0 {
        err := CreateMailWithThread(store, userIDs[r.senderIdx], recipients, r.threadID, r.ids, r.now, r.mail, r.outs);
        if err.Some? {
          return;
        }
      }
      i := i + 1;
    }
    assert rounds[i..] == [];
    err := None;
  }
}
