/** Where each message of a Codex conversation is: accepted by the app-server, on its stdin, held by
    the supervisor, in the queue, or lost. One lemma per way a message moves. */
module DeliveryLedger {
  import opened ConversationRecord

  /** In admission order, each at most once, and each as it was admitted. */
  ghost predicate InOrder(way: seq<Message>, admitted: seq<Message>) {
    && (forall i, j :: 0 <= i < j < |way| ==> way[i].number < way[j].number)
    && (forall i :: 0 <= i < |way| ==> way[i].number < |admitted| && admitted[way[i].number] == way[i])
  }

  ghost predicate Ledger(accepted: seq<Message>, wire: seq<Message>, held: seq<Message>, next: seq<Message>,
                         lost: seq<Message>, admitted: seq<Message>) {
    && (forall i :: 0 <= i < |admitted| ==> admitted[i].number == i)
    && InOrder(accepted + wire + held + next, admitted)
    && multiset(accepted) + multiset(wire) + multiset(held) + multiset(next) + multiset(lost) == multiset(admitted)
  }

  lemma Admitted(a: seq<Message>, w: seq<Message>, h: seq<Message>, n: seq<Message>, l: seq<Message>,
                 admitted: seq<Message>, m: Message)
    requires Ledger(a, w, h, n, l, admitted) && m.number == |admitted|
    ensures Ledger(a, w, h, n + [m], l, admitted + [m])
  {
    assert a + w + h + (n + [m]) == (a + w + h + n) + [m];
  }

  /** Leaving out a part of what is on its way keeps the rest in order. */
  lemma WithoutPart(x: seq<Message>, part: seq<Message>, y: seq<Message>, admitted: seq<Message>)
    requires InOrder(x + part + y, admitted)
    ensures InOrder(x + y, admitted)
  {
    var all, rest := x + part + y, x + y;
    forall i | 0 <= i < |rest|
      ensures rest[i] == all[if i < |x| then i else i + |part|]
    {
    }
  }

  lemma NextLost(a: seq<Message>, w: seq<Message>, h: seq<Message>, n: seq<Message>, l: seq<Message>,
                 admitted: seq<Message>)
    requires Ledger(a, w, h, n, l, admitted)
    ensures Ledger(a, w, h, [], l + n, admitted)
  {
    assert a + w + h + n + [] == a + w + h + n;
    WithoutPart(a + w + h, n, [], admitted);
  }

  lemma HeldLost(a: seq<Message>, w: seq<Message>, h: seq<Message>, n: seq<Message>, l: seq<Message>,
                 admitted: seq<Message>)
    requires Ledger(a, w, h, n, l, admitted)
    ensures Ledger(a, w, [], n, l + h, admitted)
  {
    WithoutPart(a + w, h, n, admitted);
    assert a + w + [] + n == a + w + n;
  }

  lemma WireLost(a: seq<Message>, w: seq<Message>, h: seq<Message>, n: seq<Message>, l: seq<Message>,
                 admitted: seq<Message>)
    requires Ledger(a, w, h, n, l, admitted)
    ensures Ledger(a, [], h, n, l + w, admitted)
  {
    assert a + w + (h + n) == a + w + h + n;
    WithoutPart(a, w, h + n, admitted);
    assert a + [] + h + n == a + (h + n);
  }

  lemma Taken(a: seq<Message>, w: seq<Message>, n: seq<Message>, l: seq<Message>, admitted: seq<Message>)
    requires Ledger(a, w, [], n, l, admitted)
    ensures Ledger(a, w, n, [], l, admitted)
  {
    assert a + w + [] + n == a + w + n + [];
  }

  lemma Sent(a: seq<Message>, w: seq<Message>, h: seq<Message>, n: seq<Message>, l: seq<Message>,
             admitted: seq<Message>)
    requires Ledger(a, w, h, n, l, admitted)
    ensures Ledger(a, w + h, [], n, l, admitted)
  {
    assert a + (w + h) + [] + n == a + w + h + n;
    assert multiset(w + h) == multiset(w) + multiset(h);
  }

  lemma Accepted(a: seq<Message>, x: seq<Message>, w: seq<Message>, h: seq<Message>, n: seq<Message>,
                 l: seq<Message>, admitted: seq<Message>)
    requires Ledger(a, x + w, h, n, l, admitted)
    ensures Ledger(a + x, w, h, n, l, admitted)
  {
    assert (a + x) + w + h + n == a + (x + w) + h + n;
    assert multiset(x + w) == multiset(x) + multiset(w);
    assert multiset(a + x) == multiset(a) + multiset(x);
  }

  lemma Returned(a: seq<Message>, x: seq<Message>, n: seq<Message>, l: seq<Message>, admitted: seq<Message>)
    requires Ledger(a, x, [], n, l, admitted)
    ensures Ledger(a, [], x, n, l, admitted)
  {
    assert a + x + [] + n == a + [] + x + n;
  }

  lemma RefusedUnheard(a: seq<Message>, x: seq<Message>, w: seq<Message>, h: seq<Message>, n: seq<Message>,
                       l: seq<Message>, admitted: seq<Message>)
    requires Ledger(a, x + w, h, n, l, admitted)
    ensures Ledger(a, w, h, n, l + x, admitted)
  {
    assert a + (x + w) + h + n == a + x + (w + h + n);
    WithoutPart(a, x, w + h + n, admitted);
    assert a + w + h + n == a + (w + h + n);
    assert multiset(x + w) == multiset(x) + multiset(w);
  }

  lemma Requeued(a: seq<Message>, w: seq<Message>, h: seq<Message>, n: seq<Message>, l: seq<Message>,
                 admitted: seq<Message>)
    requires Ledger(a, w, h, n, l, admitted)
    ensures Ledger(a, w, [], h + n, l, admitted)
  {
    assert a + w + [] + (h + n) == a + w + h + n;
    assert multiset(h + n) == multiset(h) + multiset(n);
  }

  /** Every admitted message is in one of the five places, once. */
  lemma OncePlaced(a: seq<Message>, w: seq<Message>, h: seq<Message>, n: seq<Message>, l: seq<Message>,
                   admitted: seq<Message>, k: nat)
    requires Ledger(a, w, h, n, l, admitted) && k < |admitted|
    ensures (multiset(a) + multiset(w) + multiset(h) + multiset(n) + multiset(l))[admitted[k]] == 1
  {
    OncePerNumber(admitted, k);
  }

  /** What is queued or lost is in no other place. */
  lemma Elsewhere(a: seq<Message>, w: seq<Message>, h: seq<Message>, n: seq<Message>, l: seq<Message>,
                  admitted: seq<Message>, m: Message)
    requires Ledger(a, w, h, n, l, admitted) && (m in n || m in l)
    ensures m !in a && m !in w && m !in h
  {
    var places := multiset(a) + multiset(w) + multiset(h) + multiset(n) + multiset(l);
    assert m in places;
    assert m in admitted;
    var k :| 0 <= k < |admitted| && admitted[k] == m;
    OncePlaced(a, w, h, n, l, admitted, k);
    assert multiset(n)[m] + multiset(l)[m] >= 1;
  }
}
