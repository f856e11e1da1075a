/**
 * The fields that the auth handler server guards with its mutex, the connections it
 * dials, and the effect of each critical section on both.
 */
module HostSlot {
  import opened Prelude

  /** A dialed connection; every successful dial returns the next unused number. */
  type ConnId = nat

  datatype HostClient = HostClient(conn: ConnId)

  /**
   * conn, hostClient and closed are the server's fields. dialed counts the successful
   * dials, and closes counts the calls of Close on each connection.
   */
  datatype Shared = Shared(
    conn: Option<ConnId>,
    hostClient: Option<HostClient>,
    closed: bool,
    dialed: nat,
    closes: multiset<ConnId>)

  const FRESH := Shared(None, None, false, 0, multiset{})

  /** ConfigureAuthHandler clears the stopped flag before it dials. */
  function Reopened(s: Shared): Shared {
    s.(closed := false)
  }

  function Dialed(s: Shared): Shared {
    s.(dialed := s.dialed + 1)
  }

  predicate Installs(s: Shared) {
    s.hostClient.None? && !s.closed
  }

  /** The second critical section of ensureHostClient: install the new connection or close it. */
  function Committed(s: Shared, c: ConnId): Shared {
    if Installs(s)
    then s.(conn := Some(c), hostClient := Some(HostClient(c)))
    else s.(closes := s.closes + multiset{c})
  }

  /** closeHostClient. */
  function Closed(s: Shared): Shared {
    s.(conn := None, hostClient := None, closed := true,
    closes := if s.conn.Some? then s.closes + multiset{s.conn.value} else s.closes)
  }

  /** The provider server dials while it holds its lock. */
  function ConnectedIfAbsent(s: Shared): Shared {
    if s.hostClient.Some? then s
    else Dialed(s).(conn := Some(s.dialed), hostClient := Some(HostClient(s.dialed)))
  }

  /** StopProvider; this server has no stopped flag. */
  function Disconnected(s: Shared): Shared {
    Closed(s).(closed := s.closed)
  }

  /** The client and the connection field always agree, and a stopped server holds neither. */
  predicate Coherent(s: Shared) {
    && (s.hostClient.Some? <==> s.conn.Some?)
    && (s.conn.Some? ==> s.hostClient == Some(HostClient(s.conn.value)))
    && (s.closed ==> s.conn.None?)
  }
}

/**
 * The abstract object both servers provide: a slot that holds at most one connection,
 * filled by Connect only when it is empty, emptied by Disconnect, and read by Observe.
 */
module AtomicSlot {
  import opened Prelude
  import opened HostSlot

  datatype Event =
    | Connect(c: ConnId)
    | Disconnect
    | Observe(seen: Option<ConnId>)

  /** The content of the slot after a history. */
  function Content(h: seq<Event>): (slot: Option<ConnId>) {
    if h == [] then None
    else
      match h[|h| - 1]
      case Connect(c) => Some(c)
      case Disconnect => None
      case Observe(_) => Content(h[..|h| - 1])
  }

  /** Every Connect finds the slot empty, and every Observe returns its content. */
  predicate Atomic(h: seq<Event>) {
    h == [] || (
      var before := h[..|h| - 1];
      Atomic(before) &&
      match h[|h| - 1]
      case Connect(_) => Content(before) == None
      case Disconnect => true
      case Observe(seen) => seen == Content(before))
  }

  predicate QuietBetween(h: seq<Event>, i: nat, j: nat)
    requires i <= j <= |h|
  {
    forall k :: i <= k < j ==> !h[k].Disconnect?
  }

  lemma {:induction false} PrefixAtomic(h: seq<Event>, n: nat)
    requires Atomic(h) && n <= |h|
    ensures Atomic(h[..n])
  {
    if n < |h| {
      PrefixAtomic(h[..|h| - 1], n);
      assert h[..|h| - 1][..n] == h[..n];
    } else {
      assert h[..n] == h;
    }
  }

  /** Without a Disconnect in between, a filled slot keeps the same connection. */
  lemma {:induction false} WriteOnce(h: seq<Event>, i: nat)
    requires Atomic(h) && i <= |h| && QuietBetween(h, i, |h|)
    requires Content(h[..i]).Some?
    ensures Content(h) == Content(h[..i])
  {
    if i == |h| {
      assert h[..i] == h;
    } else {
      var before := h[..|h| - 1];
      assert before[..i] == h[..i];
      WriteOnce(before, i);
    }
  }

  /** Any two successful reads with no Disconnect between them return the same connection. */
  lemma ReadersAgree(h: seq<Event>, i: nat, j: nat, c: ConnId, d: ConnId)
    requires Atomic(h) && i <= j < |h| && QuietBetween(h, i, j)
    requires h[i] == Observe(Some(c)) && h[j] == Observe(Some(d))
    ensures c == d
  {
    PrefixAtomic(h, i + 1);
    PrefixAtomic(h, j + 1);
    PrefixAtomic(h, j);
    assert h[..i + 1][..i] == h[..i];
    assert h[..j + 1][..j] == h[..j];
    assert h[..j][..i] == h[..i];
    WriteOnce(h[..j], i);
  }

  /** The slot is full exactly when some Connect has no Disconnect after it. */
  lemma {:induction false} FullIff(h: seq<Event>)
    ensures Content(h).Some? <==>
            exists i :: 0 <= i < |h| && h[i].Connect? && QuietBetween(h, i, |h|)
  {
    if h != [] {
      var n := |h| - 1;
      var before := h[..n];
      FullIff(before);
      match h[n]
      case Connect(_) => assert QuietBetween(h, n, |h|);
      case Disconnect =>
        forall i | 0 <= i < |h| && h[i].Connect? ensures !QuietBetween(h, i, |h|) {
          assert h[n].Disconnect?;
        }
      case Observe(_) =>
        forall i | 0 <= i < n ensures QuietBetween(h, i, |h|) <==> QuietBetween(before, i, n) {
          assert QuietBetween(before, i, n) ==> forall k :: i <= k < n ==> before[k] == h[k];
          if QuietBetween(h, i, |h|) {
            assert forall k :: i <= k < n ==> before[k] == h[k];
          }
        }
    }
  }
}
