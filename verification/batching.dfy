/**
 * `sendEmailsInBatches` and `sendEmails` of
 * packages/functions/src/scheduler/send/index.ts: the address list is cut into
 * contiguous slices of SES_BATCH_SIZE and each slice becomes one SES
 * SendEmail request, awaited in order.
 */
module Batching {
  import opened Wrappers

  const SesBatchSize: nat := 50

  /** Subject and text body shared by every request of one send. */
  datatype EmailParameters = EmailParameters(subject: string, body: string)

  /** The SendEmailCommandInput of `sendEmails`. */
  datatype SendEmailRequest = SendEmailRequest(
    source: Option<string>,
    toAddresses: seq<string>,
    subject: string,
    body: string)

  /** `sendEmails`: one request addressed to exactly the given list. */
  function SesRequest(source: Option<string>, params: EmailParameters, toAddresses: seq<string>): (r: SendEmailRequest)
    ensures r.toAddresses == toAddresses
    ensures r.subject == params.subject && r.body == params.body && r.source == source
  {
    SendEmailRequest(source, toAddresses, params.subject, params.body)
  }

  function Min(a: int, b: int): int {
    if a <= b then a else b
  }

  /** Concatenation of a list of lists, in order. */
  function Flatten<T>(bs: seq<seq<T>>): seq<T> {
    if |bs| == 0 then [] else bs[0] + Flatten(bs[1..])
  }

  /** The number of slices the loop makes: ceil(n / 50). */
  function BatchCount(n: nat): nat {
    (n + SesBatchSize - 1) / SesBatchSize
  }

  /**
   * The slices `toAddresses.slice(i, i + 50)` for i = 0, 50, 100, ... while
   * i < n, as a list; there are ceil(n/50) of them.
   */
  function Batches<T>(xs: seq<T>): (bs: seq<seq<T>>)
    ensures |bs| == BatchCount(|xs|)
    decreases |xs|
  {
    if |xs| == 0 then []
    else
      var k := Min(|xs|, SesBatchSize);
      [xs[..k]] + Batches(xs[k..])
  }

  /** Every slice is non-empty and at most 50 long; all but the last are exactly 50 long. */
  lemma {:induction false} BatchSizes<T>(xs: seq<T>)
    ensures forall j :: 0 <= j < |Batches(xs)| ==> 0 < |Batches(xs)[j]| <= SesBatchSize
    ensures forall j :: 0 <= j < |Batches(xs)| - 1 ==> |Batches(xs)[j]| == SesBatchSize
    decreases |xs|
  {
    if |xs| > 0 {
      var k := Min(|xs|, SesBatchSize);
      BatchSizes(xs[k..]);
      assert forall j :: 1 <= j < |Batches(xs)| ==> Batches(xs)[j] == Batches(xs[k..])[j - 1];
    }
  }

  /** Concatenating the slices in order gives back the whole list. */
  lemma {:induction false} BatchesConcat<T>(xs: seq<T>)
    ensures Flatten(Batches(xs)) == xs
    decreases |xs|
  {
    if |xs| > 0 {
      var k := Min(|xs|, SesBatchSize);
      var rest := Batches(xs[k..]);
      BatchesConcat(xs[k..]);
      assert Batches(xs)[1..] == rest;
      assert xs[..k] + xs[k..] == xs;
    }
  }

  /** `toAddresses.slice(50 * j, 50 * j + 50)`: the j-th window of 50 positions, cut at the end. */
  function Window<T>(xs: seq<T>, j: nat): seq<T>
    requires SesBatchSize * j < |xs|
  {
    xs[SesBatchSize * j..Min(SesBatchSize * j + SesBatchSize, |xs|)]
  }

  /** A window that starts inside the list is one of the ceil(n/50). */
  lemma WindowIsCounted(n: nat, k: nat)
    requires SesBatchSize * k < n
    ensures k < BatchCount(n)
  {
  }

  /** k windows reach the end of a list of n addresses exactly when k is ceil(n/50). */
  lemma CountFromBounds(n: nat, k: nat)
    requires SesBatchSize * k >= n
    requires k == 0 || SesBatchSize * (k - 1) < n
    ensures BatchCount(n) == k
  {
  }

  /** The j-th slice is the j-th window of 50 positions, cut at the end. */
  lemma {:induction false} BatchIsWindow<T>(xs: seq<T>, j: nat)
    requires j < |Batches(xs)|
    ensures SesBatchSize * j < |xs|
    ensures Batches(xs)[j] == Window(xs, j)
    decreases |xs|
  {
    var k := Min(|xs|, SesBatchSize);
    if j > 0 {
      BatchIsWindow(xs[k..], j - 1);
      assert Batches(xs)[j] == Batches(xs[k..])[j - 1];
      assert k == SesBatchSize;
      assert xs[k..][SesBatchSize * (j - 1)..Min(SesBatchSize * (j - 1) + SesBatchSize, |xs| - k)]
          == xs[SesBatchSize * j..Min(SesBatchSize * j + SesBatchSize, |xs|)];
    }
  }

  /** The addresses of a list of requests, in request order. */
  function AddressesOf(reqs: seq<SendEmailRequest>): seq<string> {
    if |reqs| == 0 then [] else reqs[0].toAddresses + AddressesOf(reqs[1..])
  }

  /** Requests addressed to the slices, one each, cover exactly the slices' addresses. */
  lemma {:induction false} AddressesOfBatches(reqs: seq<SendEmailRequest>, bs: seq<seq<string>>)
    requires |reqs| == |bs|
    requires forall j :: 0 <= j < |reqs| ==> reqs[j].toAddresses == bs[j]
    ensures AddressesOf(reqs) == Flatten(bs)
  {
    if |reqs| > 0 {
      AddressesOfBatches(reqs[1..], bs[1..]);
    }
  }

  /**
   * A complete send reaches every address exactly as listed: the requests'
   * recipient lists, concatenated in request order, are the input list.
   */
  lemma CompleteSendCoversList(source: Option<string>, params: EmailParameters, toAddresses: seq<string>, issued: seq<SendEmailRequest>)
    requires |issued| == BatchCount(|toAddresses|)
    requires forall j :: 0 <= j < |issued| ==>
               SesBatchSize * j < |toAddresses| && issued[j] == SesRequest(source, params, Window(toAddresses, j))
    ensures AddressesOf(issued) == toAddresses
  {
    forall j | 0 <= j < |issued|
      ensures issued[j].toAddresses == Batches(toAddresses)[j]
    {
      BatchIsWindow(toAddresses, j);
    }
    AddressesOfBatches(issued, Batches(toAddresses));
    BatchesConcat(toAddresses);
  }

  /**
   * `sendEmailsInBatches`. SES calls are numbered from 0 in the order they are
   * made; `failingCall` names the call whose promise rejects, if any. The
   * requests made (`issued`, including a rejected one) are the slices' requests
   * in order; the first rejection ends the loop, so no later slice is sent,
   * and the whole send succeeds iff no call rejected.
   */
  method SendEmailsInBatches(source: Option<string>, params: EmailParameters, toAddresses: seq<string>, failingCall: Option<nat>)
    returns (issued: seq<SendEmailRequest>, ok: bool)
    ensures ok <==> failingCall.None? || failingCall.value >= BatchCount(|toAddresses|)
    ensures |issued| == if ok then BatchCount(|toAddresses|) else failingCall.value + 1
    ensures |issued| <= BatchCount(|toAddresses|)
    ensures forall j :: 0 <= j < |issued| ==>
              SesBatchSize * j < |toAddresses| &&
              issued[j] == SesRequest(source, params, Window(toAddresses, j))
  {
    var totalEmails := |toAddresses|;
    issued := [];
    var i := 0;
    while i < totalEmails
      invariant i == SesBatchSize * |issued|
      invariant |issued| == 0 || SesBatchSize * (|issued| - 1) < totalEmails
      invariant forall j :: 0 <= j < |issued| ==>
                  SesBatchSize * j < totalEmails &&
                  issued[j] == SesRequest(source, params, Window(toAddresses, j))
      invariant failingCall.None? || failingCall.value >= |issued|
    {
      var batchEmails := toAddresses[i..Min(i + SesBatchSize, totalEmails)];
      var callNo := |issued|;
      issued := issued + [SesRequest(source, params, batchEmails)];
      WindowIsCounted(totalEmails, callNo);
      if failingCall == Some(callNo) {
        ok := false;
        return;
      }
      i := i + SesBatchSize;
    }
    CountFromBounds(totalEmails, |issued|);
    ok := true;
  }
}
