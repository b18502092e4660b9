/** Requests for approval, numbered as they come in: the bookkeeping that shows each is answered at most once. */
module ApprovalNumbers {
  import opened ConversationRecord

  /** Requests are numbered as they come. The pending ones are in that order, none of them has been
      answered, and none was answered twice. */
  ghost predicate Numbered(pending: seq<Approval>, answered: seq<nat>, below: nat) {
    && (forall i :: 0 <= i < |pending| ==> pending[i].serial < below)
    && (forall i, j :: 0 <= i < j < |pending| ==> pending[i].serial < pending[j].serial)
    && (forall i :: 0 <= i < |answered| ==> answered[i] < below)
    && (forall i, j :: 0 <= i < j < |answered| ==> answered[i] != answered[j])
    && (forall i, j :: 0 <= i < |answered| && 0 <= j < |pending| ==> answered[i] != pending[j].serial)
  }

  lemma NumberedAfterAsking(pending: seq<Approval>, answered: seq<nat>, below: nat, a: Approval)
    requires Numbered(pending, answered, below) && a.serial == below
    ensures Numbered(pending + [a], answered, below + 1)
  {
  }

  lemma NumberedAfterAnswer(pending: seq<Approval>, answered: seq<nat>, below: nat, k: nat)
    requires Numbered(pending, answered, below) && k < |pending|
    ensures Numbered(pending[..k] + pending[k + 1..], answered + [pending[k].serial], below)
  {
  }

  lemma {:induction false} WithoutKeeps(pending: seq<Approval>, requestID: string)
    ensures forall a :: a in WithoutRequest(pending, requestID) ==> a in pending
  {
    if pending != [] && pending[0].requestID != requestID {
      WithoutKeeps(pending[1..], requestID);
    }
  }

  lemma NumberedFirst(first: Approval, rest: seq<Approval>, answered: seq<nat>, below: nat)
    requires Numbered(rest, answered, below) && first.serial < below
    requires forall a :: a in rest ==> first.serial < a.serial
    requires forall i :: 0 <= i < |answered| ==> answered[i] != first.serial
    ensures Numbered([first] + rest, answered, below)
  {
  }

  lemma {:induction false} NumberedAfterResolved(pending: seq<Approval>, answered: seq<nat>, below: nat,
                                                 requestID: string)
    requires Numbered(pending, answered, below)
    ensures Numbered(WithoutRequest(pending, requestID), answered, below)
  {
    if pending != [] && pending[0].requestID != requestID {
      NumberedAfterResolved(pending[1..], answered, below, requestID);
      WithoutKeeps(pending[1..], requestID);
      NumberedFirst(pending[0], WithoutRequest(pending[1..], requestID), answered, below);
    }
  }
}
