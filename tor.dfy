/**
 * The Tor fetcher (`TorIPChanger`): requests through the local Tor proxy with
 * the browser-like headers, the IP check against an echo service, and the
 * identity rotation, which signals NEWNYM on the control port and then polls
 * the exit IP under a sleep budget until it sees a new one.
 *
 * What the echo service, the control port and the network answer is scripted:
 * each script is read in order through a cursor, and past its end a service
 * fails. Sleeps are recorded in a ghost log; the last request sent is kept as
 * a ghost value so that its URL, headers and timeout can be stated.
 */
module Tor {
  import opened Wrappers
  import opened Http

  const DefaultSocksPort := 9050
  const DefaultControlPort := 9051
  const DefaultNewIpWaitTime := 15

  /** What `get_current_ip` returns when it cannot tell the exit IP. */
  const IpNotFound := "IP Not Found"
  /** The echo service asked for the exit IP, and the timeout of that request. */
  const IpCheckUrl := "https://api.ipify.org?format=json"
  const IpCheckTimeout := 15
  /** The timeout `get` uses unless told otherwise. */
  const DefaultGetTimeout := 25
  /** The longest single sleep of the wait loop. */
  const PollInterval := 3

  /** The body of an echo-service answer: not JSON, or a JSON object with or without a usable `ip` entry. */
  datatype IpBody = NotJson | JsonObject(ip: Option<string>)

  /** How one IP check ends: the request raised, or it returned a status, a body text and its reading. */
  datatype IpReply = Unreachable | Answered(status: int, text: string, body: IpBody)

  /** An answer whose status makes `raise_for_status` raise. */
  predicate ErrorStatus(reply: IpReply)
    requires reply.Answered?
  {
    !IsTruthy(Response(reply.status, reply.text))
  }

  /**
   * `get_current_ip()`: the `ip` entry of a successful JSON answer when it is a
   * non-empty string, and "IP Not Found" for every failure. Never empty.
   */
  function IpOf(reply: IpReply): (ip: string)
    ensures ip != ""
    ensures ip != IpNotFound ==> reply.Answered? && !ErrorStatus(reply) && reply.body == JsonObject(Some(ip))
    ensures (reply.Answered? && !ErrorStatus(reply) && reply.body.JsonObject? && reply.body.ip.Some? &&
             reply.body.ip.value != "") ==> ip == reply.body.ip.value
  {
    match reply
    case Unreachable => IpNotFound
    case Answered(status, text, body) =>
      if !IsTruthy(Response(status, text)) then IpNotFound
      else if body.JsonObject? && body.ip.Some? && body.ip.value != "" then body.ip.value
      else IpNotFound
  }

  /**
   * What `get_current_ip` leaves in `last_response_content`: cleared first,
   * and set to the body only once the status check has passed.
   */
  function IpContent(reply: IpReply): (content: Option<string>)
    ensures content.Some? <==> reply.Answered? && !ErrorStatus(reply)
    ensures content.Some? ==> content.value == reply.text
  {
    if reply.Answered? && IsTruthy(Response(reply.status, reply.text)) then Some(reply.text) else None
  }

  /** The exit IP reported by the `k`-th IP check of a script; past its end the service is unreachable. */
  function PollIp(replies: seq<IpReply>, k: nat): string {
    IpOf(At(replies, k, Unreachable))
  }

  /** The IP check request, sent with a copy of the instance headers. */
  function IpCheckRequest(headers: map<string, string>): Request {
    Request(IpCheckUrl, headers, IpCheckTimeout)
  }

  /**
   * How the control port answers one session: whether the connection opens,
   * the credentials it accepts (`None` for authentication without a password),
   * and whether it takes the NEWNYM signal.
   */
  datatype ControlReply = ControlReply(connects: bool, accepts: set<Option<string>>, signals: bool)

  /** A control port that cannot be reached. */
  const Unavailable := ControlReply(false, {}, false)

  /** The credential offered: the password when it is set and non-empty, otherwise none. */
  function Credential(password: Option<string>): (c: Option<string>)
    ensures c.Some? <==> password.Some? && password.value != ""
    ensures c.Some? ==> c == password
  {
    if password.Some? && password.value != "" then password else None
  }

  /** Connecting, authenticating and signalling NEWNYM all succeed. */
  predicate ControlSucceeds(control: ControlReply, password: Option<string>) {
    control.connects && Credential(password) in control.accepts && control.signals
  }

  /** An observed IP counts as a change: it was found and differs from the IP before the rotation. */
  predicate IsNewIp(ip: string, before: string) {
    ip != "" && ip != IpNotFound && ip != before
  }

  /** The number of loop rounds: max(1, w // 3), Python's floor division by a positive divisor. */
  function Iterations(w: int): (n: nat)
    ensures n >= 1
  {
    if w / PollInterval < 1 then 1 else w / PollInterval
  }

  function Min(a: int, b: int): int {
    if a <= b then a else b
  }

  function Max(a: int, b: int): int {
    if a <= b then b else a
  }

  function Sum(s: seq<int>): int {
    if s == [] then 0 else s[0] + Sum(s[1..])
  }

  /**
   * Which IP checks of a script see a new IP, relative to the IP `before`
   * the rotation; a check past the end of the script sees none.
   */
  function NewIpFlags(replies: seq<IpReply>, before: string): (flags: seq<bool>)
    ensures |flags| == |replies|
    ensures forall j :: 0 <= j < |flags| ==> flags[j] == IsNewIp(IpOf(replies[j]), before)
  {
    seq(|replies|, j requires 0 <= j < |replies| => IsNewIp(IpOf(replies[j]), before))
  }

  /** The flag of the `k`-th check is whether the IP it reports is new. */
  lemma NewIpFlagAt(replies: seq<IpReply>, before: string, k: nat)
    ensures At(NewIpFlags(replies, before), k, false) == IsNewIp(PollIp(replies, k), before)
  {
  }

  /** How the wait loop ends: with an early success or not, the IP-check cursor after it, and its sleeps. */
  datatype Wait = Wait(early: bool, next: nat, sleeps: seq<int>)

  /**
   * The wait loop from `slept` seconds slept with `left` rounds to go, its IP
   * checks read at `k`, `isNew` telling which checks see a new IP, and `log`
   * the sleeps so far. Each round sleeps min(3, w - slept) (leaving when that
   * is not positive), checks the IP, returns early on a new one, and leaves
   * once the budget `w` is used up. Every round sleeps once and checks the IP once.
   */
  function WaitLoop(isNew: seq<bool>, k: nat, w: int, slept: int, left: nat, log: seq<int>): Wait
    decreases left
  {
    if left == 0 then Wait(false, k, log)
    else
      var d := Min(PollInterval, w - slept);
      if d <= 0 then Wait(false, k, log)
      else if At(isNew, k, false) then Wait(true, k + 1, log + [d])
      else if slept + d >= w then Wait(false, k + 1, log + [d])
      else WaitLoop(isNew, k + 1, w, slept + d, left - 1, log + [d])
  }

  /** Every round adds one sleep to the log and moves the IP-check cursor by one. */
  lemma {:induction false} WaitCount(isNew: seq<bool>, k: nat, w: int, slept: int, left: nat, log: seq<int>)
    ensures var r := WaitLoop(isNew, k, w, slept, left, log);
      |log| <= |r.sleeps| && r.next + |log| == k + |r.sleeps|
    decreases left
  {
    if left > 0 {
      var d := Min(PollInterval, w - slept);
      if d > 0 && !At(isNew, k, false) && slept + d < w {
        WaitCount(isNew, k + 1, w, slept + d, left - 1, log + [d]);
      }
    }
  }

  /** A wait-loop course after the sleeps `log` of the rounds already made. */
  function After(log: seq<int>, r: Wait): Wait {
    Wait(r.early, r.next, log + r.sleeps)
  }

  /** The sleeps made before the loop only come in front of its own. */
  lemma {:induction false} WaitShift(isNew: seq<bool>, k: nat, w: int, slept: int, left: nat, log: seq<int>)
    ensures WaitLoop(isNew, k, w, slept, left, log) == After(log, WaitLoop(isNew, k, w, slept, left, []))
    decreases left
  {
    assert log + [] == log;
    if left > 0 {
      var d := Min(PollInterval, w - slept);
      assert [] + [d] == [d];
      if d > 0 && !At(isNew, k, false) && slept + d < w {
        WaitShift(isNew, k + 1, w, slept + d, left - 1, log + [d]);
        WaitShift(isNew, k + 1, w, slept + d, left - 1, [d]);
        var rest := WaitLoop(isNew, k + 1, w, slept + d, left - 1, []);
        assert (log + [d]) + rest.sleeps == log + ([d] + rest.sleeps);
      }
    }
  }

  /**
   * The wait loop makes at most one round per iteration left; each sleep is
   * in (0, 3]; the total slept stays within the budget, so with nothing left
   * of it the loop does not sleep at all; and an early return follows a sleep.
   */
  lemma {:induction false} WaitBounds(isNew: seq<bool>, k: nat, w: int, slept: int, left: nat)
    ensures var r := WaitLoop(isNew, k, w, slept, left, []);
      && |r.sleeps| <= left
      && (forall j :: 0 <= j < |r.sleeps| ==> 0 < r.sleeps[j] <= PollInterval)
      && slept + Sum(r.sleeps) <= Max(slept, w)
      && (w <= slept ==> r.sleeps == [])
      && (r.early ==> r.sleeps != [])
    decreases left
  {
    var r := WaitLoop(isNew, k, w, slept, left, []);
    if left > 0 {
      var d := Min(PollInterval, w - slept);
      assert [] + [d] == [d];
      if d > 0 && !At(isNew, k, false) && slept + d < w {
        var rest := WaitLoop(isNew, k + 1, w, slept + d, left - 1, []);
        WaitShift(isNew, k + 1, w, slept + d, left - 1, [d]);
        WaitBounds(isNew, k + 1, w, slept + d, left - 1);
        assert r.sleeps == [d] + rest.sleeps;
        assert r.sleeps[1..] == rest.sleeps;
        assert forall j :: 0 < j < |r.sleeps| ==> r.sleeps[j] == rest.sleeps[j - 1];
      } else if d > 0 {
        assert r.sleeps == [d];
        assert r.sleeps[1..] == [];
      }
    }
  }

  /** An early return follows a check, and that last check saw a new IP. */
  lemma {:induction false} WaitEarlyLast(isNew: seq<bool>, k: nat, w: int, slept: int, left: nat)
    requires WaitLoop(isNew, k, w, slept, left, []).early
    ensures WaitLoop(isNew, k, w, slept, left, []).next > k
    ensures At(isNew, WaitLoop(isNew, k, w, slept, left, []).next - 1, false)
    decreases left
  {
    var d := Min(PollInterval, w - slept);
    if !At(isNew, k, false) {
      assert [] + [d] == [d];
      assert left > 0 && d > 0 && slept + d < w;
      WaitShift(isNew, k + 1, w, slept + d, left - 1, [d]);
      WaitEarlyLast(isNew, k + 1, w, slept + d, left - 1);
    }
  }

  /**
   * The loop returns early exactly on a new IP: every check it makes but the
   * last sees no new IP, and the last sees one exactly when it returns early.
   */
  lemma {:induction false} WaitEarlyIff(isNew: seq<bool>, k: nat, w: int, slept: int, left: nat)
    ensures var r := WaitLoop(isNew, k, w, slept, left, []);
      && (r.early ==> r.next > k)
      && (forall j :: k <= j < r.next ==> (At(isNew, j, false) <==> r.early && j == r.next - 1))
    decreases left
  {
    if left > 0 {
      var d := Min(PollInterval, w - slept);
      if d > 0 && !At(isNew, k, false) && slept + d < w {
        assert [] + [d] == [d];
        WaitShift(isNew, k + 1, w, slept + d, left - 1, [d]);
        WaitEarlyIff(isNew, k + 1, w, slept + d, left - 1);
      }
    }
  }

  /** With the default budget of 15 seconds and no new IP, the loop sleeps 3 seconds five times. */
  lemma DefaultWaitWithoutChange(isNew: seq<bool>, k: nat)
    requires forall j :: k <= j < k + 5 ==> !At(isNew, j, false)
    ensures WaitLoop(isNew, k, DefaultNewIpWaitTime, 0, Iterations(DefaultNewIpWaitTime), []) ==
      Wait(false, k + 5, [3, 3, 3, 3, 3])
  {
    assert Iterations(DefaultNewIpWaitTime) == 5;
    assert !At(isNew, k, false);
    assert [] + [3] == [3];
    assert !At(isNew, k + 1, false);
    assert [3] + [3] == [3, 3];
    assert !At(isNew, k + 2, false);
    assert [3, 3] + [3] == [3, 3, 3];
    assert !At(isNew, k + 3, false);
    assert [3, 3, 3] + [3] == [3, 3, 3, 3];
    assert !At(isNew, k + 4, false);
    assert [3, 3, 3, 3] + [3] == [3, 3, 3, 3, 3];
  }

  /**
   * The fallback verdict as the source writes it:
   * `(final and final != NF and final != before) or (final and final != NF)`.
   * The comparison with the IP before the rotation drops out: the verdict is
   * "the final IP is non-empty and was found".
   */
  function FallbackAsWritten(final: string, before: string): (ok: bool)
    ensures ok <==> final != "" && final != IpNotFound
  {
    (final != "" && final != IpNotFound && final != before) || (final != "" && final != IpNotFound)
  }

  /** The fallback succeeds even when the final IP is the one from before the rotation. */
  lemma FallbackAcceptsUnchangedIp(ip: string)
    requires ip != "" && ip != IpNotFound
    ensures FallbackAsWritten(ip, ip)
  {
  }

  /** When the IP before the rotation is unknown, every IP that is found counts as new. */
  lemma UnknownBeforeAcceptsAnyIp(ip: string)
    requires ip != ""
    ensures IsNewIp(ip, IpNotFound) <==> ip != IpNotFound
  {
  }

  /** How a rotation ends: its verdict, the IP-check cursor after it, and its sleeps. */
  datatype Rotation = Rotation(ok: bool, next: nat, sleeps: seq<int>)

  /** The wait loop of a rotation whose IP check before the signal was the `k`-th. */
  function RotationWait(replies: seq<IpReply>, k: nat, w: int): Wait {
    WaitLoop(NewIpFlags(replies, PollIp(replies, k)), k + 1, w, 0, Iterations(w), [])
  }

  /**
   * `change_tor_identity()`: check the IP, then open a control session; if it
   * fails, answer False after that one check. Otherwise run the wait loop and
   * answer True on an early change, or else check the IP once more and answer
   * the fallback.
   */
  function Rotate(replies: seq<IpReply>, k: nat, control: ControlReply, password: Option<string>, w: int): (r: Rotation)
    ensures r.next > k
    ensures !ControlSucceeds(control, password) ==> !r.ok && r.next == k + 1 && r.sleeps == []
  {
    if !ControlSucceeds(control, password) then Rotation(false, k + 1, [])
    else
      var loop := RotationWait(replies, k, w);
      WaitCount(NewIpFlags(replies, PollIp(replies, k)), k + 1, w, 0, Iterations(w), []);
      if loop.early then Rotation(true, loop.next, loop.sleeps)
      else Rotation(FallbackAsWritten(PollIp(replies, loop.next), PollIp(replies, k)), loop.next + 1, loop.sleeps)
  }

  /**
   * A rotation checks the IP at least once and at most max(1, w // 3) + 2
   * times, sleeps at most max(1, w // 3) times, each time in (0, 3] seconds,
   * and never longer in all than the budget; with a budget of 0 it does not sleep.
   */
  lemma RotationBounds(replies: seq<IpReply>, k: nat, control: ControlReply, password: Option<string>, w: int)
    ensures var r := Rotate(replies, k, control, password, w);
      && k < r.next <= k + Iterations(w) + 2
      && |r.sleeps| <= Iterations(w)
      && (forall j :: 0 <= j < |r.sleeps| ==> 0 < r.sleeps[j] <= PollInterval)
      && Sum(r.sleeps) <= Max(0, w)
      && (w <= 0 ==> r.sleeps == [])
  {
    if ControlSucceeds(control, password) {
      WaitCount(NewIpFlags(replies, PollIp(replies, k)), k + 1, w, 0, Iterations(w), []);
      WaitBounds(NewIpFlags(replies, PollIp(replies, k)), k + 1, w, 0, Iterations(w));
    }
  }

  /**
   * A rotation answers True before its final check exactly when one of its
   * wait-loop checks saw an IP other than the one before the rotation.
   */
  lemma RotationEarlyIff(replies: seq<IpReply>, k: nat, w: int)
    ensures var loop := RotationWait(replies, k, w);
      loop.early <==> exists j :: k + 1 <= j < loop.next && IsNewIp(PollIp(replies, j), PollIp(replies, k))
  {
    var before := PollIp(replies, k);
    var isNew := NewIpFlags(replies, before);
    var loop := RotationWait(replies, k, w);
    WaitEarlyIff(isNew, k + 1, w, 0, Iterations(w));
    if loop.early {
      NewIpFlagAt(replies, before, loop.next - 1);
    } else {
      forall j | k + 1 <= j < loop.next
        ensures !IsNewIp(PollIp(replies, j), before)
      {
        NewIpFlagAt(replies, before, j);
      }
    }
  }

  /**
   * A rotation succeeds exactly when the control port took the signal and the
   * last IP check found an IP: an early return sees a new IP, and the fallback
   * accepts any IP that is found.
   */
  lemma RotationOkIff(replies: seq<IpReply>, k: nat, control: ControlReply, password: Option<string>, w: int)
    ensures var r := Rotate(replies, k, control, password, w);
      r.ok <==> ControlSucceeds(control, password) && PollIp(replies, r.next - 1) != IpNotFound
  {
    if ControlSucceeds(control, password) && RotationWait(replies, k, w).early {
      EarlyWaitSawNewIp(replies, k, w);
    }
  }

  /** A wait loop that returns early does so on a check that saw a new IP. */
  lemma EarlyWaitSawNewIp(replies: seq<IpReply>, k: nat, w: int)
    requires RotationWait(replies, k, w).early
    ensures k + 1 < RotationWait(replies, k, w).next
    ensures IsNewIp(PollIp(replies, RotationWait(replies, k, w).next - 1), PollIp(replies, k))
  {
    var before := PollIp(replies, k);
    var isNew := NewIpFlags(replies, before);
    var loop := RotationWait(replies, k, w);
    assert loop == WaitLoop(isNew, k + 1, w, 0, Iterations(w), []);
    WaitEarlyLast(isNew, k + 1, w, 0, Iterations(w));
    var last: nat := loop.next - 1;
    assert At(isNew, last, false);
    NewIpFlagAt(replies, before, last);
    assert IsNewIp(PollIp(replies, last), before);
  }

  /** The Tor fetcher. */
  class TorIPChanger {
    const socksPort: int
    const controlPort: int
    const controlPassword: Option<string>
    const newIpWaitTime: int
    const isTorFetcher: bool
    var headers: map<string, string>
    var lastResponseContent: Option<string>

    /** The scripted answers of the echo service, the control port and the network. */
    const ipReplies: seq<IpReply>
    const controlReplies: seq<ControlReply>
    const outcomes: seq<FetchOutcome>
    /** How many IP checks, control sessions and requests have been made. */
    var ipChecks: nat
    var controlSessions: nat
    var fetches: nat

    ghost var sleepLog: seq<int>
    ghost var lastRequest: Option<Request>

    /** The headers are a copy of the browser set updated with the custom ones; nothing has been read yet. */
    constructor (ipReplies: seq<IpReply>, controlReplies: seq<ControlReply>, outcomes: seq<FetchOutcome>,
                 socksPort: int := DefaultSocksPort, controlPort: int := DefaultControlPort,
                 controlPassword: Option<string> := None, customHeaders: Option<map<string, string>> := None,
                 newIpWaitTime: int := DefaultNewIpWaitTime)
      ensures this.socksPort == socksPort && this.controlPort == controlPort
      ensures this.controlPassword == controlPassword && this.newIpWaitTime == newIpWaitTime
      ensures headers == MergeHeaders(BrowserHeaders, customHeaders)
      ensures isTorFetcher && lastResponseContent == None
      ensures this.ipReplies == ipReplies && this.controlReplies == controlReplies && this.outcomes == outcomes
      ensures ipChecks == 0 && controlSessions == 0 && fetches == 0
      ensures sleepLog == [] && lastRequest == None
    {
      this.socksPort := socksPort;
      this.controlPort := controlPort;
      this.controlPassword := controlPassword;
      headers := MergeHeaders(BrowserHeaders, customHeaders);
      isTorFetcher := true;
      lastResponseContent := None;
      this.newIpWaitTime := newIpWaitTime;
      this.ipReplies := ipReplies;
      this.controlReplies := controlReplies;
      this.outcomes := outcomes;
      ipChecks := 0;
      controlSessions := 0;
      fetches := 0;
      sleepLog := [];
      lastRequest := None;
    }

    /**
     * The body and request last recorded are those of the most recent IP check:
     * the state every IP check leaves behind.
     */
    ghost predicate LastCheckRecorded()
      reads this
    {
      ipChecks > 0 && lastResponseContent == IpContent(At(ipReplies, ipChecks - 1, Unreachable))
      && lastRequest == Some(IpCheckRequest(headers))
    }

    /**
     * `get_current_ip()`: ask the echo service, with the instance headers and a
     * 15-second timeout; answer its IP or "IP Not Found", and leave its body
     * recorded only when the status check passed.
     */
    method GetCurrentIp() returns (ip: string)
      modifies this`lastResponseContent, this`ipChecks, this`lastRequest
      ensures ipChecks == old(ipChecks) + 1
      ensures ip == IpOf(At(ipReplies, old(ipChecks), Unreachable))
      ensures lastResponseContent == IpContent(At(ipReplies, ipChecks - 1, Unreachable))
      ensures lastRequest == Some(IpCheckRequest(headers))
    {
      lastResponseContent := None;
      lastRequest := Some(IpCheckRequest(headers));
      var reply := At(ipReplies, ipChecks, Unreachable);
      ipChecks := ipChecks + 1;
      match reply {
        case Unreachable =>
          return IpNotFound;
        case Answered(status, text, body) =>
          if !IsTruthy(Response(status, text)) {
            return IpNotFound;
          }
          lastResponseContent := Some(text);
          if body.JsonObject? && body.ip.Some? && body.ip.value != "" {
            ip := body.ip.value;
          } else {
            ip := IpNotFound;
          }
      }
    }

    /**
     * `get(url, timeout, custom_headers_for_request)`: send the instance
     * headers updated with the custom ones; record the body once the request
     * returns and hand back the response, also on an error status, or the
     * response attached to an error, or nothing.
     */
    method Get(url: string, timeout: int := DefaultGetTimeout, customHeaders: Option<map<string, string>> := None)
      returns (resp: Option<Response>)
      modifies this`lastResponseContent, this`fetches, this`lastRequest
      ensures var d := Deliver(At(outcomes, old(fetches), RaisedWithoutResponse), true);
        resp == d.response && lastResponseContent == d.content
      ensures fetches == old(fetches) + 1
      ensures lastRequest == Some(Request(url, MergeHeaders(headers, customHeaders), timeout))
    {
      lastResponseContent := None;
      var requestHeaders := MergeHeaders(headers, customHeaders);
      lastRequest := Some(Request(url, requestHeaders, timeout));
      var outcome := At(outcomes, fetches, RaisedWithoutResponse);
      fetches := fetches + 1;
      match outcome {
        case Completed(status, text) =>
          lastResponseContent := Some(text);
          resp := Some(Response(status, text));
        case RaisedWithResponse(status, text) =>
          resp := Some(Response(status, text));
        case RaisedWithoutResponse =>
          resp := None;
      }
    }

    /**
     * One round of the wait loop: sleep `d` seconds, check the IP, and tell
     * whether it was found and differs from the IP `before` the rotation.
     */
    method SleepAndCheck(before: string, d: int) returns (found: bool)
      modifies this`lastResponseContent, this`ipChecks, this`sleepLog, this`lastRequest
      ensures found == IsNewIp(PollIp(ipReplies, old(ipChecks)), before)
      ensures found == At(NewIpFlags(ipReplies, before), old(ipChecks), false)
      ensures ipChecks == old(ipChecks) + 1 && sleepLog == old(sleepLog) + [d]
      ensures LastCheckRecorded()
    {
      sleepLog := sleepLog + [d];
      NewIpFlagAt(ipReplies, before, ipChecks);
      var ip := GetCurrentIp();
      found := IsNewIp(ip, before);
    }

    /**
     * The wait loop of `change_tor_identity()` after the NEWNYM signal: its
     * course is WaitLoop's over the IP-check script from the current cursor,
     * with the budget `new_ip_wait_time`; the sleeps are appended to the log.
     */
    method WaitForNewIp(before: string) returns (changed: bool)
      modifies this`lastResponseContent, this`ipChecks, this`sleepLog, this`lastRequest
      ensures var r := WaitLoop(NewIpFlags(ipReplies, before), old(ipChecks), newIpWaitTime, 0,
                                Iterations(newIpWaitTime), old(sleepLog));
        changed == r.early && ipChecks == r.next && sleepLog == r.sleeps
      ensures old(LastCheckRecorded()) ==> LastCheckRecorded()
    {
      var w := newIpWaitTime;
      var iterations := Iterations(w);
      ghost var isNew := NewIpFlags(ipReplies, before);
      ghost var total := WaitLoop(isNew, ipChecks, w, 0, iterations, sleepLog);
      var slept := 0;
      var i := 0;
      while i < iterations
        invariant 0 <= i <= iterations
        invariant total == WaitLoop(isNew, ipChecks, w, slept, iterations - i, sleepLog)
        invariant old(LastCheckRecorded()) ==> LastCheckRecorded()
      {
        var d := Min(PollInterval, w - slept);
        if d <= 0 {
          break;
        }
        var found := SleepAndCheck(before, d);
        slept := slept + d;
        if found {
          return true;
        }
        if slept >= w {
          break;
        }
        i := i + 1;
      }
      changed := false;
    }

    /**
     * `change_tor_identity()`: the course and verdict are Rotate's over the
     * scripts from the current cursors, and the sleeps are appended to the log.
     */
    method ChangeTorIdentity() returns (ok: bool)
      modifies this`lastResponseContent, this`ipChecks, this`controlSessions, this`sleepLog, this`lastRequest
      ensures var r := Rotate(ipReplies, old(ipChecks), At(controlReplies, old(controlSessions), Unavailable),
                              controlPassword, newIpWaitTime);
        ok == r.ok && ipChecks == r.next && sleepLog == old(sleepLog) + r.sleeps
      ensures controlSessions == old(controlSessions) + 1
      ensures LastCheckRecorded()
    {
      var before := GetCurrentIp();
      var control := At(controlReplies, controlSessions, Unavailable);
      controlSessions := controlSessions + 1;
      if !ControlSucceeds(control, controlPassword) {
        return false;
      }
      WaitShift(NewIpFlags(ipReplies, before), ipChecks, newIpWaitTime, 0, Iterations(newIpWaitTime), sleepLog);
      var changed := WaitForNewIp(before);
      if changed {
        return true;
      }
      var final := GetCurrentIp();
      ok := FallbackAsWritten(final, before);
    }
  }
}
