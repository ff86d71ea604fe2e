/**
  The request-generating `DataGenerator` of generator/request_generator.go.
  `math/rand` is replaced by explicit draws: every `rand.Intn(n)` becomes an
  index below `n` and every `rand.Float32()` a coin in [0, 1).
*/
module RequestGenerator {
  import opened Models
  import opened GoStrings
  import opened Vocabulary
  import opened Collections

  /** The random draws one call of `GenerateCreateMailRequest` consumes. */
  datatype CreateDraws = CreateDraws(
    fromIdx: nat,
    recipientIdxs: seq<nat>, // one per `rand.Intn(3) + 1` recipient slot
    ccCoin: real,
    ccIdx: nat,
    bccCoin: real,
    bccIdx: nat,
    subjectIdx: nat,
    templateIdx: nat)

  const CcChance: real := 0.3
  const BccChance: real := 0.1

  /** The draws are ones that `math/rand` can produce for `users` users. */
  predicate ValidCreateDraws(users: nat, d: CreateDraws) {
    && d.fromIdx < users
    && 1 <= |d.recipientIdxs| <= 3
    && (forall k :: 0 <= k < |d.recipientIdxs| ==> d.recipientIdxs[k] < users)
    && 0.0 <= d.ccCoin < 1.0 && d.ccIdx < users
    && 0.0 <= d.bccCoin < 1.0 && d.bccIdx < users
    && d.subjectIdx < |Subjects| && d.templateIdx < |ContentTemplates|
  }

  /** Every user id the draws pick, sender included. */
  function Drawn(userIDs: seq<string>, idxs: seq<nat>): (r: seq<string>)
    requires forall k :: 0 <= k < |idxs| ==> idxs[k] < |userIDs|
    ensures |r| == |idxs| && forall k :: 0 <= k < |idxs| ==> r[k] == userIDs[idxs[k]]
  {
    seq(|idxs|, k requires 0 <= k < |idxs| => userIDs[idxs[k]])
  }

  /** The `to` list: the drawn ids, in order, without the ones equal to `from`. */
  function DrawnRecipients(userIDs: seq<string>, idxs: seq<nat>, from: string): seq<string>
    requires forall k :: 0 <= k < |idxs| ==> idxs[k] < |userIDs|
  {
    Without(Drawn(userIDs, idxs), from)
  }

  /** What the `to` list of a create request is made of. */
  lemma RecipientsFacts(userIDs: seq<string>, idxs: seq<nat>, from: string)
    requires forall k :: 0 <= k < |idxs| ==> idxs[k] < |userIDs|
    ensures |DrawnRecipients(userIDs, idxs, from)| <= |idxs|
    ensures forall r :: r in DrawnRecipients(userIDs, idxs, from) ==> r in userIDs && r != from
  {
    var drawn := Drawn(userIDs, idxs);
    WithoutContents(drawn, from);
    forall r | r in DrawnRecipients(userIDs, idxs, from) ensures r in userIDs && r != from {
      WithoutSubset(drawn, from, r);
      var k :| 0 <= k < |drawn| && drawn[k] == r;
    }
  }

  lemma NotInConcat(x: string, a: seq<string>, b: seq<string>, c: seq<string>)
    requires x !in a && x !in b && x !in c
    ensures x !in a + b + c
  {
  }

  /** `GenerateCreateMailRequest`. */
  method GenerateCreateMailRequest(userIDs: seq<string>, d: CreateDraws, replyToID: string)
    returns (req: MailRequest)
    requires |userIDs| > 0 && ValidCreateDraws(|userIDs|, d)
    ensures req.from == userIDs[d.fromIdx]
    ensures req.to == DrawnRecipients(userIDs, d.recipientIdxs, req.from)
    ensures |req.to| <= 3 && forall r :: r in req.to ==> r in userIDs && r != req.from
    ensures req.cc == (if d.ccCoin < CcChance && userIDs[d.ccIdx] != req.from then [userIDs[d.ccIdx]] else [])
    ensures req.bcc == (if d.bccCoin < BccChance && userIDs[d.bccIdx] != req.from then [userIDs[d.bccIdx]] else [])
    ensures req.from !in req.to + req.cc + req.bcc
    ensures req.subject in Subjects && req.content == Fill(ContentTemplates[d.templateIdx], req.subject)
    ensures Contains(req.content, req.subject)
    ensures req.replyTo == replyToID
  {
    var from := userIDs[d.fromIdx];

    var to: seq<string> := [];
    var i := 0;
    while i < |d.recipientIdxs|
      invariant 0 <= i <= |d.recipientIdxs|
      invariant to == DrawnRecipients(userIDs, d.recipientIdxs[..i], from)
    {
      var recipient := userIDs[d.recipientIdxs[i]];
      if recipient != from {
        to := to + [recipient];
      }
      assert Drawn(userIDs, d.recipientIdxs[..i + 1])
        == Drawn(userIDs, d.recipientIdxs[..i]) + [recipient];
      i := i + 1;
    }
    assert d.recipientIdxs[..i] == d.recipientIdxs;
    RecipientsFacts(userIDs, d.recipientIdxs, from);

    var cc: seq<string> := [];
    if d.ccCoin < CcChance {
      var ccRecipient := userIDs[d.ccIdx];
      if ccRecipient != from {
        cc := [ccRecipient];
      }
    }

    var bcc: seq<string> := [];
    if d.bccCoin < BccChance {
      var bccRecipient := userIDs[d.bccIdx];
      if bccRecipient != from {
        bcc := [bccRecipient];
      }
    }

    var subject := Subjects[d.subjectIdx];
    var content := Fill(ContentTemplates[d.templateIdx], subject);
    FillContainsSubject(ContentTemplates[d.templateIdx], subject);

    NotInConcat(from, to, cc, bcc);
    req := MailRequest(from, to, cc, bcc, subject, content, replyToID);
  }

  /** `GenerateListMailsRequest`: `limitDraw` is `rand.Intn(80)` and
      `offsetDraw` is `rand.Intn(100)`. */
  function GenerateListMailsRequest(userIDs: seq<string>, userIdx: nat, limitDraw: nat, offsetDraw: nat)
    : (r: ListMailsRequest)
    requires userIdx < |userIDs| && limitDraw < 80 && offsetDraw < 100
    ensures r.userID in userIDs
    ensures 20 <= r.limit <= 99 && 0 <= r.offset <= 99
  {
    ListMailsRequest(userIDs[userIdx], 20 + limitDraw, offsetDraw)
  }

  const SearchLimit: int := 50

  /** `GenerateSearchMailsRequest`. */
  function GenerateSearchMailsRequest(userIDs: seq<string>, userIdx: nat, subjectIdx: nat)
    : (r: SearchMailsRequest)
    requires userIdx < |userIDs| && subjectIdx < |Subjects|
    ensures r.userID in userIDs && r.searchTerm in Subjects && r.limit == SearchLimit
  {
    SearchMailsRequest(userIDs[userIdx], Subjects[subjectIdx], SearchLimit)
  }

  /** `GetRandomUserID`. */
  function GetRandomUserID(userIDs: seq<string>, userIdx: nat): (id: string)
    requires userIdx < |userIDs|
    ensures id in userIDs
  {
    userIDs[userIdx]
  }
}
