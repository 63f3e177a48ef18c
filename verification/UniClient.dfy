/** The unidirectional client of uni_client.go: retrying Invoke calls, and the wait between
    attempts to connect. */
module UniClient {
  import opened Runs

  // ---- The wait between attempts -------------------------------------------------------------

  const SECOND := 1_000_000_000
  const MINUTE := 60 * SECOND

  /** A time.Duration: a 64-bit two's complement count of nanoseconds. */
  function Wrap64(x: int): int {
    (x + 0x8000_0000_0000_0000) % 0x1_0000_0000_0000_0000 - 0x8000_0000_0000_0000
  }

  function Max(d1: int, d2: int): int {
    if d1 > d2 then d1 else d2
  }

  function Pow2(n: nat): nat {
    if n == 0 then 1 else 2 * Pow2(n - 1)
  }

  /** The k-th wait in closed form: a second, then minutes doubling in periods of 28. */
  function WaitAt(k: nat): int {
    if k == 0 then SECOND else MINUTE * Pow2((k - 1) % 28)
  }

  lemma Pow2Bounds(n: nat)
    requires n < 28
    ensures 1 <= Pow2(n) <= 0x800_0000
    ensures Pow2(n) == 0x800_0000 <==> n == 27
  {
    assert Pow2(9) == 512 && Pow2(18) == 512 * Pow2(9) by { Pow2Add(9, 9); }
    Pow2Add(9, 18);
    assert Pow2(27) == 0x800_0000;
    Pow2Grows(n, 27);
  }

  lemma {:induction false} Pow2Add(m: nat, n: nat)
    ensures Pow2(m + n) == Pow2(m) * Pow2(n)
  {
    if m > 0 {
      Pow2Add(m - 1, n);
      assert Pow2(m + n) == 2 * Pow2(m - 1 + n);
    }
  }

  lemma {:induction false} Pow2Grows(m: nat, n: nat)
    requires m <= n
    ensures 1 <= Pow2(m) <= Pow2(n) && (m < n ==> Pow2(m) < Pow2(n))
  {
    if m == n {
      Pow2Positive(m);
    } else {
      Pow2Grows(m, n - 1);
    }
  }

  lemma {:induction false} Pow2Positive(n: nat)
    ensures Pow2(n) >= 1
  {
    if n > 0 {
      Pow2Positive(n - 1);
    }
  }

  lemma WrapAround(x: int)
    ensures -0x8000_0000_0000_0000 <= x < 0x8000_0000_0000_0000 ==> Wrap64(x) == x
    ensures 0x8000_0000_0000_0000 <= x < 0x1_8000_0000_0000_0000 ==> Wrap64(x) == x - 0x1_0000_0000_0000_0000
  {
  }

  /** Doubling, wrapping around at 64 bits, with a floor of one minute, is the closed form's next
      wait: the doubling that overflows comes out negative and the floor absorbs it. */
  lemma WaitStep(k: nat)
    ensures Max(Wrap64(WaitAt(k) * 2), MINUTE) == WaitAt(k + 1)
  {
    WrapAround(WaitAt(k) * 2);
    if k > 0 {
      var j := (k - 1) % 28;
      Pow2Bounds(j);
      NextInPeriod(k);
      if j == 27 {
        assert WaitAt(k) * 2 == MINUTE * 0x1000_0000;
      } else {
        Pow2Bounds(j + 1);
        assert WaitAt(k) * 2 == MINUTE * Pow2(j + 1);
      }
    }
  }

  lemma NextInPeriod(k: nat)
    requires k > 0
    ensures k % 28 == if (k - 1) % 28 == 27 then 0 else (k - 1) % 28 + 1
  {
  }

  /** Every wait is a real one, and after the first none is shorter than a minute. */
  lemma WaitIsLongEnough(k: nat)
    ensures WaitAt(k) > 0 && (k > 0 ==> WaitAt(k) >= MINUTE) && WaitAt(k) <= MINUTE * 0x800_0000
    ensures Wrap64(WaitAt(k)) == WaitAt(k)
  {
    if k > 0 {
      Pow2Bounds((k - 1) % 28);
    }
  }

  /** The minute is a floor and no cap: a wait stays within it only at the start and at the start of
      each period, after the overflow. */
  lemma WaitWithinMinuteIff(k: nat)
    ensures WaitAt(k) <= MINUTE <==> k == 0 || (k - 1) % 28 == 0
  {
    if k > 0 {
      var j := (k - 1) % 28;
      Pow2Bounds(j);
      Pow2Grows(0, j);
    }
  }

  datatype Attempt = Connects | FailsThenWaits | FailsAndCancelled

  /** Where a retry loop stands once the given attempts have been made. */
  datatype Outcome = Connected | Cancelled | StillTrying

  /** How many attempts fail and wait before the first that does not. */
  function Waits(attempts: seq<Attempt>): nat {
    if attempts == [] || !attempts[0].FailsThenWaits? then 0 else 1 + Waits(attempts[1..])
  }

  lemma {:induction false} WaitsPrefix(attempts: seq<Attempt>, n: nat)
    requires n <= |attempts| && forall i :: 0 <= i < n ==> attempts[i].FailsThenWaits?
    ensures Waits(attempts) == n + Waits(attempts[n..])
  {
    if n > 0 {
      WaitsPrefix(attempts[1..], n - 1);
      assert attempts[1..][n - 1..] == attempts[n..];
    }
  }

  /** retryConnectWithBackoff against any finite beginning of its attempts: the waits it makes are
      the closed form's, one for each failure, and it ends at the first attempt that succeeds or
      finds its context done. */
  method RetryConnectWithBackoff(attempts: seq<Attempt>) returns (outcome: Outcome, waits: seq<int>)
    ensures |waits| == Waits(attempts) <= |attempts|
    ensures forall k :: 0 <= k < |waits| ==> waits[k] == WaitAt(k)
    ensures outcome == if |waits| == |attempts| then StillTrying
                       else if attempts[|waits|].Connects? then Connected else Cancelled
  {
    waits := [];
    var reconnectWait := SECOND;
    for i := 0 to |attempts|
      invariant |waits| == i && reconnectWait == WaitAt(i)
      invariant forall k :: 0 <= k < i ==> waits[k] == WaitAt(k)
      invariant forall k :: 0 <= k < i ==> attempts[k].FailsThenWaits?
    {
      WaitsPrefix(attempts, i);
      match attempts[i] {
        case Connects =>
          return Connected, waits;
        case FailsAndCancelled =>
          return Cancelled, waits;
        case FailsThenWaits =>
          waits := waits + [reconnectWait];
          WaitStep(i);
          reconnectWait := Max(Wrap64(reconnectWait * 2), MINUTE);
      }
    }
    WaitsPrefix(attempts, |attempts|);
    outcome := StillTrying;
  }
}
