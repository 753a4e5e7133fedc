/**
 * PaymentService (src/payment/service.ts): one payment process per agreement, invoice
 * and debit note routing to those processes, the platform name, allocation creation and
 * the wait for outstanding payments at the end.
 */
module PaymentServices {
  import opened Wrappers

  type AgreementId = string
  type AllocationId = string

  datatype PaymentErrorCode = MissingAllocation | PaymentProcessNotInitialized | AllocationCreationFailed | OtherPaymentCode(code: string)

  datatype PaymentError = PaymentError(code: PaymentErrorCode, message: string)

  /** An error raised while creating an allocation: a payment error, or anything else. */
  datatype RaisedError = RaisedPaymentError(error: PaymentError) | RaisedOther(message: string)

  /** What the service knows of an AgreementPaymentProcess: the documents handed to it. */
  datatype PaymentProcess = PaymentProcess(
    agreement: AgreementId,
    allocation: AllocationId,
    finished: bool,
    invoices: seq<string>,
    debitNotes: seq<string>)

  datatype Document = InvoiceDoc(id: string, agreementId: AgreementId) | DebitNoteDoc(id: string, agreementId: AgreementId)

  const Mainnets := ["polygon", "mainnet"]

  function Token(network: string): (t: string)
    ensures t == "glm" <==> network in Mainnets
    ensures t != "glm" ==> t == "tglm"
  {
    if network in Mainnets then "glm" else "tglm"
  }

  /** `getPaymentPlatform`: driver, network and token joined by dashes. */
  function GetPaymentPlatform(driver: string, network: string): (p: string)
    ensures p == driver + "-" + network + "-" + Token(network)
  {
    driver + "-" + network + "-" + Token(network)
  }

  /** The platform ends in "-glm" exactly on the two mainnets, and otherwise in "-tglm". */
  lemma PaymentPlatformToken(driver: string, network: string)
    ensures var p := GetPaymentPlatform(driver, network);
            (network in Mainnets ==> p[|p| - 4..] == "-glm") &&
            (network !in Mainnets ==> p[|p| - 5..] == "-tglm")
  {
    var p := GetPaymentPlatform(driver, network);
    assert p == (driver + "-" + network) + ("-" + Token(network));
  }

  /** The number of processes not yet finished. */
  function UnpaidCount(processes: map<AgreementId, PaymentProcess>): (n: nat)
    ensures n <= |processes|
    ensures n == 0 <==> forall id :: id in processes ==> processes[id].finished
  {
    var unpaid := set id | id in processes && !processes[id].finished;
    SubsetSize(unpaid, processes.Keys);
    if exists id :: id in processes && !processes[id].finished then
      var id :| id in processes && !processes[id].finished;
      assert id in unpaid;
      |unpaid|
    else
      |unpaid|
  }

  /** Starting a process for a new agreement adds exactly one unpaid agreement. */
  lemma UnpaidCountAfterAccept(processes: map<AgreementId, PaymentProcess>, id: AgreementId, allocation: AllocationId)
    requires id !in processes
    ensures UnpaidCount(processes[id := PaymentProcess(id, allocation, false, [], [])]) == UnpaidCount(processes) + 1
  {
    var m := processes[id := PaymentProcess(id, allocation, false, [], [])];
    var before := set k | k in processes && !processes[k].finished;
    var after := set k | k in m && !m[k].finished;
    assert after == before + {id};
    assert id !in before;
  }

  lemma SubsetSize(a: set<AgreementId>, b: set<AgreementId>)
    requires a <= b
    ensures |a| <= |b|
  {
    if a != {} {
      var x :| x in a;
      SubsetSize(a - {x}, b - {x});
    }
  }

  /**
   * The rounds `end` waits: each round reads the unpaid count and stops after a round that
   * saw 0; the timeout, set by round `timeoutAt`, stops the loop before that round runs.
   */
  function WaitRounds(unpaidSeen: seq<nat>, timeoutAt: nat, j: nat): (n: nat)
    requires j <= timeoutAt <= |unpaidSeen|
    ensures j <= n <= timeoutAt
    ensures forall k :: j <= k < n - 1 ==> unpaidSeen[k] != 0
    ensures n < timeoutAt ==> n > j && unpaidSeen[n - 1] == 0
    decreases timeoutAt - j
  {
    if j == timeoutAt then j
    else if unpaidSeen[j] == 0 then j + 1
    else WaitRounds(unpaidSeen, timeoutAt, j + 1)
  }

  class PaymentService {
    var isRunning: bool
    var allocation: Option<AllocationId>
    var processes: map<AgreementId, PaymentProcess>
    /** The errors emitted on the service's `error` event. */
    var emitted: seq<PaymentError>
    var allocationReleased: bool
    const driver: string
    const network: string

    predicate Valid()
      reads this
    {
      forall id :: id in processes ==> processes[id].agreement == id
    }

    constructor (driver: string, network: string)
      ensures Valid() && this.driver == driver && this.network == network
      ensures !isRunning && allocation.None? && processes == map[] && emitted == [] && !allocationReleased
    {
      this.driver := driver;
      this.network := network;
      isRunning := false;
      allocation := None;
      processes := map[];
      emitted := [];
      allocationReleased := false;
    }

    method Run()
      modifies this
      ensures isRunning
      ensures allocation == old(allocation) && processes == old(processes) && emitted == old(emitted)
      ensures allocationReleased == old(allocationReleased)
    {
      isRunning := true;
    }

    /** `acceptPayments`: one process per agreement, which needs an allocation. */
    method AcceptPayments(agreement: AgreementId) returns (r: Outcome<PaymentError>)
      requires Valid()
      modifies this
      ensures Valid()
      ensures agreement in old(processes) ==> r == Pass && processes == old(processes)
      ensures agreement !in old(processes) && allocation.None? ==>
                r.Fail? && r.error.code == MissingAllocation && processes == old(processes)
      ensures agreement !in old(processes) && allocation.Some? ==>
                r == Pass && processes == old(processes)[agreement := PaymentProcess(agreement, allocation.value, false, [], [])]
      ensures isRunning == old(isRunning) && allocation == old(allocation) && emitted == old(emitted)
      ensures allocationReleased == old(allocationReleased)
    {
      if agreement in processes {
        return Pass;
      }
      if allocation.None? {
        return Fail(PaymentError(MissingAllocation, "You need to create an allocation before starting any payment processes"));
      }
      processes := processes[agreement := PaymentProcess(agreement, allocation.value, false, [], [])];
      r := Pass;
    }

    /**
     * `processInvoice` / `processDebitNote`: a document goes to its agreement's process;
     * one whose agreement has no process is refused.
     */
    method ProcessDocument(doc: Document) returns (r: Outcome<PaymentError>)
      requires Valid()
      modifies this
      ensures Valid()
      ensures doc.agreementId !in old(processes) ==>
                r.Fail? && r.error.code == PaymentProcessNotInitialized && processes == old(processes)
      ensures doc.agreementId in old(processes) ==>
                r == Pass && processes == old(processes)[doc.agreementId := WithDocument(old(processes)[doc.agreementId], doc)]
      ensures isRunning == old(isRunning) && allocation == old(allocation) && emitted == old(emitted)
      ensures allocationReleased == old(allocationReleased)
    {
      if doc.agreementId !in processes {
        var kind := if doc.InvoiceDoc? then "invoice" else "debit note";
        return Fail(PaymentError(PaymentProcessNotInitialized,
          "No payment process was initiated for this agreement - did you forget to use 'acceptPayments' or that's not your " + kind + "?"));
      }
      var p := processes[doc.agreementId];
      processes := processes[doc.agreementId := WithDocument(p, doc)];
      r := Pass;
    }

    /** `subscribePayments`: a document that cannot be processed is reported on the error event. */
    method SubscribePayments(doc: Document)
      requires Valid()
      modifies this
      ensures Valid()
      ensures doc.agreementId in old(processes) ==>
                emitted == old(emitted) && processes == old(processes)[doc.agreementId := WithDocument(old(processes)[doc.agreementId], doc)]
      ensures doc.agreementId !in old(processes) ==>
                processes == old(processes) && |emitted| == |old(emitted)| + 1 &&
                emitted[..|old(emitted)|] == old(emitted) && emitted[|old(emitted)|].code == PaymentProcessNotInitialized
      ensures isRunning == old(isRunning) && allocation == old(allocation)
      ensures allocationReleased == old(allocationReleased)
    {
      var r := ProcessDocument(doc);
      if r.Fail? {
        emitted := emitted + [r.error];
      }
    }

    /**
     * `createAllocation`: on success the allocation is kept; a payment error is raised
     * as it is, any other error is wrapped as AllocationCreationFailed.
     */
    method CreateAllocation(created: Result<AllocationId, RaisedError>) returns (r: Result<AllocationId, PaymentError>)
      modifies this
      ensures created.Ok? ==> r == Ok(created.value) && allocation == Some(created.value)
      ensures created.Err? && created.error.RaisedPaymentError? ==> r == Err(created.error.error) && allocation == old(allocation)
      ensures created.Err? && created.error.RaisedOther? ==> r.Err? && r.error.code == AllocationCreationFailed && allocation == old(allocation)
      ensures isRunning == old(isRunning) && processes == old(processes) && emitted == old(emitted)
      ensures allocationReleased == old(allocationReleased)
    {
      match created
      case Ok(id) =>
        allocation := Some(id);
        r := Ok(id);
      case Err(RaisedPaymentError(e)) =>
        r := Err(e);
      case Err(RaisedOther(message)) =>
        r := Err(PaymentError(AllocationCreationFailed,
          "Unable to create allocation for driver/network " + driver + "/" + network + ". " + message));
    }

    /**
     * `end`: with processes present it waits round by round while running and before the
     * timeout; `unpaidSeen[k]` is the unpaid count read in round k, and the timeout flag
     * is set by round `timeoutAt`. Afterwards the service stops and releases the allocation.
     */
    method End(unpaidSeen: seq<nat>, timeoutAt: nat) returns (rounds: nat)
      requires timeoutAt <= |unpaidSeen|
      modifies this
      ensures !isRunning
      ensures |processes| == 0 || !old(isRunning) ==> rounds == 0
      ensures |processes| > 0 && old(isRunning) ==> rounds == WaitRounds(unpaidSeen, timeoutAt, 0)
      ensures allocationReleased == (old(allocationReleased) || allocation.Some?)
      ensures allocation == old(allocation) && processes == old(processes) && emitted == old(emitted)
    {
      rounds := 0;
      if |processes| > 0 {
        var running := isRunning;
        var timeout := timeoutAt == 0;
        while running && !timeout
          invariant rounds <= timeoutAt
          invariant timeout <==> rounds == timeoutAt
          invariant !old(isRunning) ==> rounds == 0 && !running
          invariant old(isRunning) && running ==> WaitRounds(unpaidSeen, timeoutAt, rounds) == WaitRounds(unpaidSeen, timeoutAt, 0)
          invariant old(isRunning) && !running ==> rounds > 0 && WaitRounds(unpaidSeen, timeoutAt, 0) == rounds
          decreases timeoutAt - rounds
        {
          running := unpaidSeen[rounds] != 0;
          rounds := rounds + 1;
          timeout := rounds == timeoutAt;
        }
      }
      isRunning := false;
      allocationReleased := allocationReleased || allocation.Some?;
    }

    function NumberOfUnpaidAgreements(): (n: nat)
      reads this
      ensures n == UnpaidCount(processes)
    {
      UnpaidCount(processes)
    }
  }

  /** The process after a document has been handed to it. */
  function WithDocument(p: PaymentProcess, doc: Document): (q: PaymentProcess)
    ensures q.agreement == p.agreement && q.allocation == p.allocation && q.finished == p.finished
    ensures doc.InvoiceDoc? ==> q.invoices == p.invoices + [doc.id] && q.debitNotes == p.debitNotes
    ensures doc.DebitNoteDoc? ==> q.debitNotes == p.debitNotes + [doc.id] && q.invoices == p.invoices
  {
    match doc
    case InvoiceDoc(id, _) => p.(invoices := p.invoices + [id])
    case DebitNoteDoc(id, _) => p.(debitNotes := p.debitNotes + [id])
  }
}
