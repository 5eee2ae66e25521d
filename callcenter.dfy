/** The call console (`src/pages/CallCenter.tsx`): a queue of customers to
    call, the active call's lifecycle (dialing, connected, on hold, ended,
    cleared), its one-second duration timer, the `MM:SS` duration display,
    skipping a customer to the back of the queue, and the "Save Call Log"
    enabling rule. The `setTimeout`/`setInterval` callbacks are methods the
    environment calls: `ConnectTimeout`, `TimerTick`, `ClearAfterEnd`. */
module CallCenter {
  import opened Text
  import opened Seqs
  import opened Wrappers

  datatype Priority = High | Medium | Low

  datatype CallSession = CallSession(
    id: string,
    accountId: string,
    customerName: string,
    phoneNumber: string,
    balance: real,
    lastContact: string,
    attempts: nat,
    priority: Priority)

  datatype CallStatus = Dialing | Connected | OnHold | Ended

  /** `startTime` is the opaque `new Date()` taken when the call starts. */
  datatype ActiveCall = ActiveCall(duration: nat, status: CallStatus, startTime: int)

  const MockCallQueue: seq<CallSession> := [
    CallSession("CALL-001", "ACC-001", "John Smith", "(555) 123-4567", 2500.00, "2024-01-10", 2, High),
    CallSession("CALL-002", "ACC-002", "Sarah Johnson", "(555) 234-5678", 1200.00, "2024-01-12", 1, Medium),
    CallSession("CALL-003", "ACC-004", "Emily Davis", "(555) 456-7890", 3200.00, "Never", 0, High)
  ]

  // ---- `formatDuration` ------------------------------------------------

  /** `n.toString().padStart(2, '0')`: the decimal digits of `n`, with one
      '0' put in front only when `n` has a single digit. */
  function Pad2(n: nat): (r: string)
    ensures IsDigits(r) && DecimalValue(r) == n
    ensures n < 100 <==> |r| == 2
    ensures r[0] == '0' <==> n < 10
  {
    var d := DecimalString(n);
    DecimalRoundTrip(n);
    if |d| < 2 then DecimalLeadingZero(d); "0" + d else d
  }

  /** The texts `formatDuration` can produce: a minutes field, a colon and a
      seconds field, both written as `Pad2` writes numbers, the seconds
      below 60. */
  predicate IsDurationText(t: string)
  {
    && |t| >= 5
    && t[|t| - 3] == ':'
    && IsDigits(t[..|t| - 3])
    && IsDigits(t[|t| - 2..])
    && DecimalValue(t[|t| - 2..]) < 60
    && t[..|t| - 3] == Pad2(DecimalValue(t[..|t| - 3]))
    && t[|t| - 2..] == Pad2(DecimalValue(t[|t| - 2..]))
  }

  /** Reads a rendered duration back as a number of seconds: the minutes
      field gives the whole minutes and the seconds field the remainder. */
  function ParseDuration(t: string): (r: nat)
    requires IsDurationText(t)
    ensures r / 60 == DecimalValue(t[..|t| - 3]) && r % 60 == DecimalValue(t[|t| - 2..])
  {
    DecimalValue(t[..|t| - 3]) * 60 + DecimalValue(t[|t| - 2..])
  }

  /** `formatDuration(seconds)`: the minutes field holds `seconds / 60` and
      the seconds field `seconds % 60`, each zero-padded to two digits. */
  function FormatDuration(seconds: nat): (r: string)
    ensures IsDurationText(r)
    ensures DecimalValue(r[..|r| - 3]) == seconds / 60 && DecimalValue(r[|r| - 2..]) == seconds % 60
    ensures seconds < 6000 <==> |r| == 5
  {
    var mins, secs := Pad2(seconds / 60), Pad2(seconds % 60);
    DurationParts(mins, secs);
    mins + ":" + secs
  }

  /** The minutes and the seconds can be cut back out of a rendered duration. */
  lemma DurationParts(mins: string, secs: string)
    requires |secs| == 2
    ensures var r := mins + ":" + secs;
      |r| == |mins| + 3 && r[|r| - 3] == ':' && r[..|r| - 3] == mins && r[|r| - 2..] == secs
  {
  }

  /** Reading the display back gives the duration: minutes and seconds are
      recovered, for durations of any length. */
  lemma FormatDurationRoundTrip(seconds: nat)
    ensures ParseDuration(FormatDuration(seconds)) == seconds
  {
    var m, sec := seconds / 60, seconds % 60;
    assert m * 60 + sec == seconds;
    DurationParts(Pad2(m), Pad2(sec));
  }

  /** Every text of the display's form is the display of the duration it
      reads as: no two durations share a display, and nothing else is one. */
  lemma ParseDurationRoundTrip(t: string)
    requires IsDurationText(t)
    ensures FormatDuration(ParseDuration(t)) == t
  {
    var mins, secs := t[..|t| - 3], t[|t| - 2..];
    assert t == mins + ":" + secs;
    var n := ParseDuration(t);
    assert FormatDuration(n) == Pad2(n / 60) + ":" + Pad2(n % 60);
  }

  /** 65 seconds read "01:05". */
  lemma SixtyFiveSecondsDisplay(seconds: nat)
    requires seconds == 65
    ensures FormatDuration(seconds) == "01:05"
  {
    var m, sec := seconds / 60, seconds % 60;
    assert m == 1 && sec == 5;
    assert Pad2(m) == "01" && Pad2(sec) == "05";
  }

  // ---- the queue rotation of `skipCall` --------------------------------

  predicate HasId(c: CallSession, id: string)
  {
    c.id == id
  }

  /** `[...queue.filter(c => c.id !== skipped.id), { ...skipped, attempts: skipped.attempts + 1 }]` */
  function SkipQueue(queue: seq<CallSession>, skipped: CallSession): (r: seq<CallSession>)
    ensures |r| >= 1 && r[|r| - 1] == skipped.(attempts := skipped.attempts + 1)
    ensures forall x :: x in r[..|r| - 1] <==> x in queue && x.id != skipped.id
  {
    var rest := Filter(queue, c => !HasId(c, skipped.id));
    FilterMembershipAll(queue, c => !HasId(c, skipped.id));
    var r := rest + [skipped.(attempts := skipped.attempts + 1)];
    assert r[..|r| - 1] == rest;
    r
  }

  /** The new queue without its last entry: the customers now ahead of the skipped one. */
  function AheadOfSkipped(queue: seq<CallSession>, skipped: CallSession): seq<CallSession>
  {
    var r := SkipQueue(queue, skipped);
    r[..|r| - 1]
  }

  /** The customers left in front keep their relative order. */
  lemma SkipQueueKeepsOrder(queue: seq<CallSession>, skipped: CallSession)
    ensures exists idx :: EmbedsBy(AheadOfSkipped(queue, skipped), queue, idx)
  {
    var p := c => !HasId(c, skipped.id);
    var r := SkipQueue(queue, skipped);
    assert AheadOfSkipped(queue, skipped) == Filter(queue, p);
    FilterIsSubsequence(queue, p);
    assert EmbedsBy(AheadOfSkipped(queue, skipped), queue, KeptIndices(queue, p));
  }

  /** The queue grows by one minus the number of entries carrying the skipped
      id; so its length is unchanged when the customer was queued once. */
  lemma SkipQueueLength(queue: seq<CallSession>, skipped: CallSession)
    ensures |SkipQueue(queue, skipped)| == |queue| - Count(queue, c => HasId(c, skipped.id)) + 1
    ensures Count(queue, c => HasId(c, skipped.id)) == 1 ==> |SkipQueue(queue, skipped)| == |queue|
  {
    CountSplit(queue, c => HasId(c, skipped.id), c => !HasId(c, skipped.id));
  }

  // ---- the console ------------------------------------------------------

  /** The page component's state and its event handlers. */
  class CallConsole {
    var callQueue: seq<CallSession>
    var activeCall: Option<ActiveCall>
    var currentCustomer: Option<CallSession>
    var isMuted: bool
    var notes: string
    var selectedDisposition: string

    /** A customer is shown exactly while a call is active: every handler sets
        or clears the two together. */
    ghost predicate Valid()
      reads this
    {
      activeCall.None? <==> currentCustomer.None?
    }

    constructor ()
      ensures Valid()
      ensures callQueue == MockCallQueue && activeCall == None && currentCustomer == None
      ensures !isMuted && notes == "" && selectedDisposition == ""
    {
      callQueue := MockCallQueue;
      activeCall := None;
      currentCustomer := None;
      isMuted := false;
      notes := "";
      selectedDisposition := "";
    }

    /** `startCall(customer)`; `now` stands for `new Date()`. */
    method StartCall(customer: CallSession, now: int)
      requires Valid()
      modifies this
      ensures Valid()
      ensures currentCustomer == Some(customer)
      ensures activeCall == Some(ActiveCall(0, Dialing, now))
      ensures callQueue == old(callQueue) && isMuted == old(isMuted)
      ensures notes == old(notes) && selectedDisposition == old(selectedDisposition)
    {
      currentCustomer := Some(customer);
      activeCall := Some(ActiveCall(0, Dialing, now));
    }

    /** "Start Auto Dialing" (shown while no call is active): calls the head
        of the queue; the button is disabled on an empty queue. */
    method StartAutoDialing(now: int)
      requires Valid() && activeCall.None?
      modifies this
      ensures Valid()
      ensures old(callQueue) != [] ==>
        currentCustomer == Some(old(callQueue)[0]) && activeCall == Some(ActiveCall(0, Dialing, now))
      ensures old(callQueue) == [] ==> activeCall == None && currentCustomer == None
      ensures callQueue == old(callQueue) && notes == old(notes)
      ensures selectedDisposition == old(selectedDisposition) && isMuted == old(isMuted)
    {
      if callQueue != [] {
        StartCall(callQueue[0], now);
      }
    }

    /** A click on one of the first five queue entries: starts a call only
        when none is active. */
    method PickFromQueue(i: nat, now: int)
      requires Valid() && i < |callQueue| && i < 5
      modifies this
      ensures Valid()
      ensures old(activeCall).None? ==>
        currentCustomer == Some(old(callQueue)[i]) && activeCall == Some(ActiveCall(0, Dialing, now))
      ensures old(activeCall).Some? ==>
        activeCall == old(activeCall) && currentCustomer == old(currentCustomer)
      ensures callQueue == old(callQueue) && notes == old(notes)
      ensures selectedDisposition == old(selectedDisposition) && isMuted == old(isMuted)
    {
      if activeCall.None? {
        StartCall(callQueue[i], now);
      }
    }

    /** The three-second "connection" timeout set by `startCall`: marks any
        call still present as connected. */
    method ConnectTimeout()
      requires Valid()
      modifies this`activeCall
      ensures Valid()
      ensures old(activeCall).None? ==> activeCall == None
      ensures old(activeCall).Some? ==> activeCall == Some(old(activeCall).value.(status := Connected))
    {
      if activeCall.Some? {
        activeCall := Some(activeCall.value.(status := Connected));
      }
    }

    /** One second of the call timer, which runs only while the call is connected. */
    method TimerTick()
      requires Valid()
      modifies this`activeCall
      ensures Valid()
      ensures old(activeCall).Some? && old(activeCall).value.status == Connected ==>
        activeCall == Some(old(activeCall).value.(duration := old(activeCall).value.duration + 1))
      ensures !(old(activeCall).Some? && old(activeCall).value.status == Connected) ==>
        activeCall == old(activeCall)
    {
      if activeCall.Some? && activeCall.value.status == Connected {
        activeCall := Some(activeCall.value.(duration := activeCall.value.duration + 1));
      }
    }

    /** The hold button is enabled only while connected or on hold. */
    function HoldEnabled(): (r: bool)
      reads this
      ensures r ==> activeCall.Some?
      ensures activeCall.Some? ==> (r <==> activeCall.value.status in {Connected, OnHold})
    {
      activeCall.Some? && (activeCall.value.status == Connected || activeCall.value.status == OnHold)
    }

    /** A click on the hold button: swaps on hold and connected; a disabled
        button ignores the click. */
    method PressHold()
      requires Valid()
      modifies this`activeCall
      ensures Valid()
      ensures old(HoldEnabled()) && old(activeCall).value.status == OnHold ==>
        activeCall == Some(old(activeCall).value.(status := Connected))
      ensures old(HoldEnabled()) && old(activeCall).value.status == Connected ==>
        activeCall == Some(old(activeCall).value.(status := OnHold))
      ensures !old(HoldEnabled()) ==> activeCall == old(activeCall)
    {
      if HoldEnabled() {
        var call := activeCall.value;
        activeCall := Some(call.(status := if call.status == OnHold then Connected else OnHold));
      }
    }

    /** `endCall`: marks the call ended (its clearing timeout is `ClearAfterEnd`). */
    method EndCall()
      requires Valid()
      modifies this`activeCall
      ensures Valid()
      ensures old(activeCall).None? ==> activeCall == None
      ensures old(activeCall).Some? ==> activeCall == Some(old(activeCall).value.(status := Ended))
    {
      if activeCall.Some? {
        activeCall := Some(activeCall.value.(status := Ended));
      }
    }

    /** The two-second timeout set by `endCall`: clears the call, the customer,
        the notes and the chosen disposition. */
    method ClearAfterEnd()
      requires Valid()
      modifies this
      ensures Valid()
      ensures activeCall == None && currentCustomer == None
      ensures notes == "" && selectedDisposition == ""
      ensures callQueue == old(callQueue) && isMuted == old(isMuted)
    {
      activeCall := None;
      currentCustomer := None;
      notes := "";
      selectedDisposition := "";
    }

    /** `skipCall`: moves the current customer, one attempt more, to the back
        of the queue, then clears the call state as `ClearAfterEnd` does. */
    method SkipCall()
      requires Valid()
      modifies this
      ensures Valid()
      ensures old(currentCustomer).Some? ==> callQueue == SkipQueue(old(callQueue), old(currentCustomer).value)
      ensures old(currentCustomer).None? ==> callQueue == old(callQueue)
      ensures activeCall == None && currentCustomer == None
      ensures notes == "" && selectedDisposition == "" && isMuted == old(isMuted)
    {
      if currentCustomer.Some? {
        callQueue := SkipQueue(callQueue, currentCustomer.value);
      }
      activeCall := None;
      currentCustomer := None;
      notes := "";
      selectedDisposition := "";
    }

    method SetNotes(text: string)
      modifies this`notes
      ensures notes == text
    {
      notes := text;
    }

    method SelectDisposition(key: string)
      modifies this`selectedDisposition
      ensures selectedDisposition == key
    {
      selectedDisposition := key;
    }

    method ToggleMute()
      modifies this`isMuted
      ensures isMuted == !old(isMuted)
    {
      isMuted := !isMuted;
    }

    /** The customer card inside the active-call panel is rendered when a
        call is active and a customer is set; by `Valid()` that is exactly
        while a call is active, so the active-call panel never lacks it. */
    function ShowsCustomerCard(): (r: bool)
      reads this
      requires Valid()
      ensures r <==> activeCall.Some?
    {
      activeCall.Some? && currentCustomer.Some?
    }

    /** "Save Call Log" is enabled iff the notes hold a non-whitespace
        character and a disposition is chosen. */
    function SaveEnabled(): (r: bool)
      reads this
      ensures r <==> !AllWhitespace(notes) && selectedDisposition != ""
    {
      BlankIff(notes);
      !IsBlank(notes) && selectedDisposition != ""
    }
  }

  /** A call to John Smith that connects and runs for 65 timer ticks shows
      "01:05"; after it is ended further ticks leave the display alone. */
  method SixtyFiveSecondCall() returns (shown: string, afterEnd: string)
    ensures shown == "01:05" && afterEnd == "01:05"
  {
    var console := new CallConsole();
    console.StartAutoDialing(0);
    console.ConnectTimeout();
    var t := 0;
    while t < 65
      invariant 0 <= t <= 65
      invariant console.Valid()
      invariant console.activeCall == Some(ActiveCall(t, Connected, 0))
    {
      console.TimerTick();
      t := t + 1;
    }
    SixtyFiveSecondsDisplay(console.activeCall.value.duration);
    shown := FormatDuration(console.activeCall.value.duration);
    console.EndCall();
    console.TimerTick();
    assert console.activeCall.value.duration == 65;
    afterEnd := FormatDuration(console.activeCall.value.duration);
  }

  /** The connection timeout does not look at the status: a call ended while
      still dialing is marked connected when the timeout fires, and the timer
      then counts again until the clearing timeout removes it. */
  method EndedWhileDialingReconnects() returns (status: CallStatus, duration: nat)
    ensures status == Connected && duration == 1
  {
    var console := new CallConsole();
    console.StartAutoDialing(0);
    console.EndCall();
    console.ConnectTimeout();
    console.TimerTick();
    status, duration := console.activeCall.value.status, console.activeCall.value.duration;
  }
}
