/** The per-session cache of the dashboard (dashboard.py: `get_state` and the
    "Run" block). Streamlit reruns the whole script on every interaction; the
    dictionary kept in `st.session_state['state']` is what survives a rerun. */
module Session {
  import opened Wrappers
  import opened View

  /** The value under 'last_sk_id_curr': Python's `None`, or the text that was
      typed in the identifier box. */
  datatype LastId = NoId | Id(text: string)

  /** A reply of `POST /predict`: its status code and, for status 200, its body. */
  datatype Reply = Reply(status: int, body: Payload)

  /** The contents of the state dictionary. `lastId == None` means that the
      key 'last_sk_id_curr' is absent. */
  datatype CacheState = CacheState(dataReceived: bool, data: Option<Payload>, lastId: Option<LastId>)

  /** The dictionary `get_state` creates. */
  const Initial: CacheState := CacheState(false, None, Some(NoId))

  /** `data_received` is only ever set together with `data`. */
  predicate Consistent(c: CacheState) {
    c.dataReceived ==> c.data.Some?
  }

  /** A result for `id` is cached and will be served. */
  predicate Cached(c: CacheState, id: string) {
    c.dataReceived && c.lastId == Some(Id(id))
  }

  /** `get_state` on an existing dictionary: add a missing 'last_sk_id_curr'
      as `None`, touching nothing else. */
  function Repair(c: CacheState): (d: CacheState)
    ensures d.dataReceived == c.dataReceived && d.data == c.data
    ensures d.lastId.Some?
    ensures c.lastId.Some? ==> d == c
    ensures c.lastId.None? ==> d.lastId == Some(NoId)
    ensures Consistent(d) <==> Consistent(c)
  {
    if c.lastId.None? then c.(lastId := Some(NoId)) else c
  }

  /** What the script does in the Run block. */
  datatype Outcome =
    | Skipped                                        // neither clicked nor previously received
    | Stopped(status: int)                           // error shown, `st.stop()`
    | Shown(data: Payload, alreadyReceived: bool)    // the page is drawn from `data`

  datatype Transition = Transition(next: CacheState, fetched: bool, outcome: Outcome)

  /** The Run block stated case by case: nothing happens unless the button was
      clicked or data was received before; a cached result for the same
      identifier is served without a request; otherwise exactly one request is
      made, and only a 200 reply marks the data as received. */
  function Step(c: CacheState, clicked: bool, id: string, reply: Reply): (t: Transition)
    requires c.lastId.Some? && Consistent(c)
    ensures Consistent(t.next) && t.next.lastId.Some?
    ensures t.fetched <==> (clicked || c.dataReceived) && !Cached(c, id)
    ensures t.fetched ==> t.next.lastId == Some(Id(id)) && (t.next.dataReceived <==> reply.status == 200)
    ensures t.fetched && reply.status != 200 ==> t.next.data == c.data && t.outcome == Stopped(reply.status)
    ensures t.fetched && reply.status == 200 ==>
              t.next.data == Some(reply.body) && t.outcome == Shown(reply.body, false)
    ensures !t.fetched ==> t.next == c
    ensures !t.fetched ==>
              t.outcome == if clicked || c.dataReceived then Shown(c.data.value, true) else Skipped
    ensures t.outcome.Shown? ==> Cached(t.next, id) && t.next.data == Some(t.outcome.data)
  {
    if !(clicked || c.dataReceived) then
      Transition(c, false, Skipped)
    else if Cached(c, id) then
      Transition(c, false, Shown(c.data.value, true))
    else if reply.status == 200 then
      Transition(CacheState(true, Some(reply.body), Some(Id(id))), true, Shown(reply.body, false))
    else
      Transition(CacheState(false, c.data, Some(Id(id))), true, Stopped(reply.status))
  }

  /** One interaction: whether Run was clicked, the identifier in the box, and
      the reply the API would give if asked. */
  datatype Submission = Submission(clicked: bool, id: string, reply: Reply)

  /** A sequence of interactions from state `c`: the final state and the
      number of requests sent. */
  function Replay(c: CacheState, subs: seq<Submission>): (r: (CacheState, nat))
    requires c.lastId.Some? && Consistent(c)
    ensures Consistent(r.0) && r.0.lastId.Some?
    ensures r.1 <= |subs|
    decreases |subs|
  {
    if subs == [] then (c, 0)
    else
      var t := Step(c, subs[0].clicked, subs[0].id, subs[0].reply);
      var rest := Replay(t.next, subs[1..]);
      (rest.0, rest.1 + if t.fetched then 1 else 0)
  }

  predicate AllFor(subs: seq<Submission>, id: string) {
    forall i :: 0 <= i < |subs| ==> subs[i].id == id
  }

  predicate AllSucceed(subs: seq<Submission>) {
    forall i :: 0 <= i < |subs| ==> subs[i].reply.status == 200
  }

  /** Once a result is cached for an identifier, resubmitting that identifier
      any number of times sends no request and changes nothing. */
  lemma {:induction false} CachedIsQuiet(c: CacheState, id: string, subs: seq<Submission>)
    requires c.lastId.Some? && Consistent(c)
    requires Cached(c, id) && AllFor(subs, id)
    ensures Replay(c, subs) == (c, 0)
  {
    if subs != [] {
      CachedIsQuiet(c, id, subs[1..]);
    }
  }

  /** Submitting one identifier repeatedly, with a working API, sends at most
      one request in total. */
  lemma {:induction false} SameIdFetchesAtMostOnce(c: CacheState, id: string, subs: seq<Submission>)
    requires c.lastId.Some? && Consistent(c)
    requires AllFor(subs, id) && AllSucceed(subs)
    ensures Replay(c, subs).1 <= 1
  {
    if subs != [] {
      var t := Step(c, subs[0].clicked, id, subs[0].reply);
      if t.fetched {
        CachedIsQuiet(t.next, id, subs[1..]);
      } else {
        SameIdFetchesAtMostOnce(c, id, subs[1..]);
      }
    }
  }

  /** Submitting an identifier with nothing cached for it (a different one
      after a received result, or the first click of the session) sends,
      with a working API, exactly one request, whose body is what stays
      cached however often the identifier is resubmitted. */
  lemma {:induction false} NewIdFetchesExactlyOnce(c: CacheState, id: string, subs: seq<Submission>)
    requires c.lastId.Some? && Consistent(c)
    requires |subs| > 0 && !Cached(c, id) && (subs[0].clicked || c.dataReceived)
    requires AllFor(subs, id) && AllSucceed(subs)
    ensures Replay(c, subs).1 == 1
    ensures Replay(c, subs).0 == CacheState(true, Some(subs[0].reply.body), Some(Id(id)))
  {
    var t := Step(c, subs[0].clicked, id, subs[0].reply);
    CachedIsQuiet(t.next, id, subs[1..]);
  }

  /** A failed request leaves nothing cached for the new identifier, so the
      next click on Run asks again. */
  lemma FailureAllowsRetry(c: CacheState, clicked: bool, id: string, bad: Reply, next: Reply)
    requires c.lastId.Some? && Consistent(c)
    requires !Cached(c, id) && (clicked || c.dataReceived) && bad.status != 200
    ensures Step(Step(c, clicked, id, bad).next, true, id, next).fetched
  {
  }

  /** The dictionary kept in `st.session_state['state']`. */
  class StateDict {
    var dataReceived: bool
    var data: Option<Payload>
    var lastId: Option<LastId>

    function Snapshot(): CacheState
      reads this
    {
      CacheState(dataReceived, data, lastId)
    }

    /** `{'data_received': False, 'data': None, 'last_sk_id_curr': None}` */
    constructor ()
      ensures Snapshot() == Initial
    {
      dataReceived := false;
      data := None;
      lastId := Some(NoId);
    }

    /** The Run block (lines 59-77), statement by statement; `reply` is what
        `requests.post` returns if it is called, `fetched` whether it is. */
    method Run(clicked: bool, id: string, reply: Reply) returns (fetched: bool, outcome: Outcome)
      requires lastId.Some? && Consistent(Snapshot())
      modifies this
      ensures Snapshot() == Step(old(Snapshot()), clicked, id, reply).next
      ensures fetched == Step(old(Snapshot()), clicked, id, reply).fetched
      ensures outcome == Step(old(Snapshot()), clicked, id, reply).outcome
    {
      fetched := false;
      if !(clicked || dataReceived) {
        outcome := Skipped;
        return;
      }
      var alreadyReceived := dataReceived && lastId == Some(Id(id));
      if lastId != Some(Id(id)) {
        dataReceived := false;
        lastId := Some(Id(id));
      }
      if !dataReceived {
        fetched := true;
        if reply.status != 200 {
          outcome := Stopped(reply.status);
          return;
        }
        data := Some(reply.body);
        dataReceived := true;
      }
      outcome := Shown(data.value, alreadyReceived);
    }
  }

  /** `st.session_state`, as far as this script uses it: the 'state' entry,
      `null` while absent. */
  class SessionState {
    var state: StateDict?

    constructor ()
      ensures state == null
    {
      state := null;
    }

    /** `get_state` (lines 21-29): create the dictionary on first use, add a
        missing 'last_sk_id_curr' otherwise, and return the stored object. */
    method GetState() returns (s: StateDict)
      modifies this, state
      ensures state == s
      ensures old(state) == null ==> fresh(s) && s.Snapshot() == Initial
      ensures old(state) != null ==> s == old(state) && s.Snapshot() == Repair(old(state.Snapshot()))
    {
      if state == null {
        state := new StateDict();
      } else if state.lastId.None? {
        state.lastId := Some(NoId);
      }
      s := state;
    }

    /** One rerun of the script: `get_state` (line 48), the Run block, and, when
        the page is drawn, everything computed from the cached reply. */
    method Rerun(clicked: bool, id: string, reply: Reply) returns (fetched: bool, outcome: Outcome, display: Option<Display>)
      requires state != null ==> Consistent(state.Snapshot())
      modifies this, state
      ensures state != null && (old(state) != null ==> state == old(state))
      ensures var before := if old(state) == null then Initial else Repair(old(state.Snapshot()));
              var t := Step(before, clicked, id, reply);
              state.Snapshot() == t.next && fetched == t.fetched && outcome == t.outcome
      ensures display == if outcome.Shown? then Render(outcome.data) else None
    {
      var s := GetState();
      fetched, outcome := s.Run(clicked, id, reply);
      display := if outcome.Shown? then Render(outcome.data) else None;
    }
  }
}
