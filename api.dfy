/** The local trigger queue of planobs/api.py and its client for the remote
    trigger service (Kowalski). The queue is an insertion-ordered dictionary
    from integer id to trigger record; the remote service is an oracle that
    answers the n-th call of a client with reply(n) and logs every request. */
module Api {
  import opened Wrappers
  import opened Text
  import Models

  /** One entry of a trigger's `targets` list, as add_trigger_to_queue builds it. */
  datatype Target = Target(
    requestId: int,
    fieldId: seq<int>,
    filterId: seq<int>,
    subprogramName: string,
    programPi: string,
    programId: int,
    exposureTime: int)

  /** A queued trigger record: the body of the PUT that submits it. */
  datatype Trigger = Trigger(
    user: string,
    queueName: string,
    queueType: string,
    validityWindowMjd: seq<real>,
    targets: seq<Target>)

  /** One item of the `data` list the service returns for a GET. */
  datatype QueueEntry = QueueEntry(
    queueName: string,
    isToo: bool,
    validityWindowMjd: seq<real>,
    queue: string)

  /** What the client sends to the trigger endpoint. */
  datatype Request = Get | Put(trigger: Trigger) | Delete(user: string, queueName: string)

  /** The service's response envelope. */
  datatype Response = Response(status: string, message: string, data: seq<QueueEntry>)

  /** The errors the queue raises: ValueError for a bad trigger name, APIError otherwise. */
  datatype QueueError =
    | InvalidTriggerName(triggerName: string)  // ValueError
    | MissingToken                             // APIError: no KOWALSKI_API_TOKEN
    | PingFailed(token: string)                // APIError: ping returned false
    | CallFailed(status: string, message: string)  // APIError from a GET
    | SubmitFailed                             // APIError from submit_queue
    | DeleteFailed(queueName: string)          // APIError from delete_queue, naming the trigger
    | DeleteTriggerFailed                      // APIError from delete_trigger

  predicate Succeeded(res: Response) {
    res.status == "success"
  }

  /** The name check of add_trigger_to_queue: trigger_name[:4] == "ToO_". */
  predicate HasTooPrefix(triggerName: string)
    ensures HasTooPrefix(triggerName) <==> |triggerName| >= 4 && triggerName[..4] == "ToO_"
  {
    Take(triggerName, 4) == "ToO_"
  }

  /** Names shorter than four characters never pass the check. */
  lemma ShortNamesRejected(triggerName: string)
    requires |triggerName| < 4
    ensures !HasTooPrefix(triggerName)
  {
  }

  /** The remote queue name of the trigger with id `id`: f"{trigger_name}_{id}". */
  function QueueName(triggerName: string, id: nat): (r: string)
    ensures |r| == |triggerName| + 1 + |NatToString(id)|
  {
    triggerName + "_" + NatToString(id)
  }

  /** A queue name determines both the trigger name and the id it was made from,
      because str(id) holds no underscore. */
  lemma QueueNameInjective(a: string, i: nat, b: string, j: nat)
    requires QueueName(a, i) == QueueName(b, j)
    ensures a == b && i == j
  {
    var s, t := NatToString(i), NatToString(j);
    var x := QueueName(a, i);
    TrailingDigitsAfterUnderscore(a, s);
    TrailingDigitsAfterUnderscore(b, t);
    assert s == x[|x| - |s|..] == t;
    NatToStringInjective(i, j);
    assert a == x[..|a|] == b;
  }

  /** The number of decimal digits at the end of a string. */
  function TrailingDigits(x: string): (n: nat)
    ensures n <= |x|
  {
    if x != [] && IsDigit(x[|x| - 1]) then 1 + TrailingDigits(x[..|x| - 1]) else 0
  }

  /** In name + "_" + digits, the trailing digits are exactly the digit suffix. */
  lemma {:induction false} TrailingDigitsAfterUnderscore(a: string, s: string)
    requires AllDigits(s)
    ensures TrailingDigits(a + "_" + s) == |s|
  {
    var x := a + "_" + s;
    if s == [] {
      assert x[|x| - 1] == '_';
    } else {
      assert x[..|x| - 1] == a + "_" + s[..|s| - 1];
      TrailingDigitsAfterUnderscore(a, s[..|s| - 1]);
    }
  }

  /** The record add_trigger_to_queue stores under id `id`. */
  function NewTrigger(
    user: string, triggerName: string, id: nat, startMjd: real, endMjd: real,
    fieldId: seq<int>, filterId: seq<int>, requestId: int, subprogramName: string,
    exposureTime: int, programId: int, programPi: string): (t: Trigger)
    ensures t.user == user && t.queueType == "list" && t.validityWindowMjd == [startMjd, endMjd]
    ensures t.queueName == QueueName(triggerName, id)
    ensures HasTooPrefix(triggerName) ==> HasTooPrefix(t.queueName)
    ensures |t.targets| == 1 && t.targets[0].fieldId == fieldId && t.targets[0].filterId == filterId
    ensures t.targets[0].exposureTime == exposureTime && t.targets[0].programId == programId
  {
    Trigger(
      user, QueueName(triggerName, id), "list", [startMjd, endMjd],
      [Target(requestId, fieldId, filterId, subprogramName, programPi, programId, exposureTime)])
  }

  /** Every record the queue holds: user, queue_type "list", a two-element
      window, one target, and a queue name made from a "ToO_" name and its id. */
  ghost predicate WellFormed(t: Trigger, user: string, id: nat) {
    && t.user == user
    && t.queueType == "list"
    && |t.validityWindowMjd| == 2
    && |t.targets| == 1
    && exists name :: HasTooPrefix(name) && t.queueName == QueueName(name, id)
  }

  /** The record built for a valid name is well formed. */
  lemma NewTriggerWellFormed(
    user: string, triggerName: string, id: nat, startMjd: real, endMjd: real,
    fieldId: seq<int>, filterId: seq<int>, requestId: int, subprogramName: string,
    exposureTime: int, programId: int, programPi: string)
    requires HasTooPrefix(triggerName)
    ensures WellFormed(NewTrigger(user, triggerName, id, startMjd, endMjd, fieldId, filterId,
                                  requestId, subprogramName, exposureTime, programId, programPi), user, id)
  {
    var t := NewTrigger(user, triggerName, id, startMjd, endMjd, fieldId, filterId,
                        requestId, subprogramName, exposureTime, programId, programPi);
    assert HasTooPrefix(triggerName) && t.queueName == QueueName(triggerName, id);
  }

  /** A well-formed record passes the queue-name, window and target-count checks
      of the TooRequest model (the "ToO_" prefix survives the appended id). */
  lemma WellFormedIsValidRequest(t: Trigger, user: string, id: nat)
    requires WellFormed(t, user, id)
    ensures Models.RequestValidation(t.queueName, t.validityWindowMjd, |t.targets|) == {}
  {
    var name :| HasTooPrefix(name) && t.queueName == QueueName(name, id);
    assert t.queueName[..4] == name[..4];
  }

  /** The responses the service gives to `n` calls starting with call number `from`. */
  function Replies(reply: nat -> Response, from: nat, n: nat): (rs: seq<Response>)
    ensures |rs| == n
    ensures forall i :: 0 <= i < n ==> rs[i] == reply(from + i)
  {
    seq(n, i requires 0 <= i => reply(from + i))
  }

  /** The index of the first non-success response, or |rs| when all succeeded. */
  function FirstFailure(rs: seq<Response>): (k: nat)
    ensures k <= |rs|
    ensures forall i :: 0 <= i < k ==> Succeeded(rs[i])
    ensures k < |rs| ==> !Succeeded(rs[k])
  {
    if rs == [] then 0
    else if !Succeeded(rs[0]) then 0
    else 1 + FirstFailure(rs[1..])
  }

  /** The three facts FirstFailure ensures pin its value down. */
  lemma FirstFailureIs(rs: seq<Response>, k: nat)
    requires k <= |rs|
    requires forall i :: 0 <= i < k ==> Succeeded(rs[i])
    requires k < |rs| ==> !Succeeded(rs[k])
    ensures FirstFailure(rs) == k
  {
  }

  /** The PUT of every trigger, in order; SubmitQueue sends a prefix of
      these, up to the first failure. */
  function PutRequests(ts: seq<Trigger>): (rs: seq<Request>)
    ensures |rs| == |ts| && forall i :: 0 <= i < |ts| ==> rs[i] == Put(ts[i])
  {
    seq(|ts|, i requires 0 <= i < |ts| => Put(ts[i]))
  }

  /** The DELETE of every trigger's queue, in order; DeleteQueue sends all
      of them. */
  function DeleteRequests(user: string, ts: seq<Trigger>): (rs: seq<Request>)
    ensures |rs| == |ts| && forall i :: 0 <= i < |ts| ==> rs[i] == Delete(user, ts[i].queueName)
  {
    seq(|ts|, i requires 0 <= i < |ts| => Delete(user, ts[i].queueName))
  }

  /** [x for x in data if x["is_TOO"]] */
  function TooOnly(data: seq<QueueEntry>): (r: seq<QueueEntry>)
    ensures |r| <= |data|
    ensures forall e :: e in r <==> e in data && e.isToo
  {
    if data == [] then []
    else if data[0].isToo then [data[0]] + TooOnly(data[1..])
    else TooOnly(data[1..])
  }

  /** Filtering keeps the order: it distributes over concatenation. */
  lemma {:induction false} TooOnlyKeepsOrder(a: seq<QueueEntry>, b: seq<QueueEntry>)
    ensures TooOnly(a + b) == TooOnly(a) + TooOnly(b)
  {
    if a == [] {
      assert a + b == b;
    } else {
      assert (a + b)[0] == a[0];
      assert (a + b)[1..] == a[1..] + b;
      TooOnlyKeepsOrder(a[1..], b);
    }
  }

  /** Filtering twice is filtering once. */
  lemma {:induction false} TooOnlyIdempotent(data: seq<QueueEntry>)
    ensures TooOnly(TooOnly(data)) == TooOnly(data)
  {
    if data != [] {
      TooOnlyIdempotent(data[1..]);
    }
  }

  /** [x["queue_name"] for x in data]; GetAllQueuesNameOnly and
      GetTooQueuesNameOnly return it. */
  function Names(data: seq<QueueEntry>): (r: seq<string>)
    ensures |r| == |data| && forall i :: 0 <= i < |data| ==> r[i] == data[i].queueName
  {
    seq(|data|, i requires 0 <= i < |data| => data[i].queueName)
  }

  /** The Kowalski client: an oracle for the remote trigger service. */
  class Kowalski {
    /** The service's answer to this client's n-th call (0-based). */
    const reply: nat -> Response
    /** What a ping returns. */
    const alive: bool
    /** Every request sent through `Call`, in order. */
    var sent: seq<Request>

    constructor (reply: nat -> Response, alive: bool)
      ensures this.reply == reply && this.alive == alive && sent == []
    {
      this.reply := reply;
      this.alive := alive;
      sent := [];
    }

    method Ping() returns (ok: bool)
      ensures ok == alive
    {
      ok := alive;
    }

    /** One request to the trigger endpoint. */
    method Call(req: Request) returns (res: Response)
      modifies this
      ensures sent == old(sent) + [req]
      ensures res == reply(|old(sent)|)
    {
      res := reply(|sent|);
      sent := sent + [req];
    }
  }

  /** Builds a queue for `user`: fails when there is no API token, then pings
      the service and fails when the ping fails. The client stands for
      Kowalski(token=..., protocol="https", host=..., port=443). */
  method Open(user: string, apiToken: Option<string>, client: Kowalski) returns (r: Result<Queue, QueueError>)
    ensures apiToken.None? ==> r == Failure(MissingToken)
    ensures apiToken.Some? && !client.alive ==> r == Failure(PingFailed(apiToken.value))
    ensures r.Success? <==> apiToken.Some? && client.alive
    ensures r.Success? ==> fresh(r.value) && r.value.Valid() && r.value.user == user
                           && r.value.kowalski == client && r.value.keys == []
  {
    if apiToken.None? {
      return Failure(MissingToken);
    }
    var ok := client.Ping();
    if !ok {
      return Failure(PingFailed(apiToken.value));
    }
    var q := new Queue(user, client);
    return Success(q);
  }

  class Queue {
    const user: string
    const kowalski: Kowalski
    /** self.queue: id -> trigger record */
    var queue: map<int, Trigger>
    /** The dictionary's keys in insertion order. */
    var keys: seq<int>

    /** The ids are exactly 0..n-1, inserted in increasing order, and every
        record is well formed for its id. */
    ghost predicate Valid()
      reads this
    {
      && |queue| == |keys|
      && (forall i :: 0 <= i < |keys| ==> keys[i] == i)
      && (forall k :: k in queue <==> 0 <= k < |keys|)
      && (forall k :: k in queue ==> k >= 0 && WellFormed(queue[k], user, k))
    }

    /** The records in insertion order. */
    function Triggers(): (ts: seq<Trigger>)
      reads this
      requires Valid()
      ensures |ts| == |keys| && forall i :: 0 <= i < |keys| ==> ts[i] == queue[i]
    {
      var m, ks := queue, keys;
      seq(|ks|, i requires 0 <= i < |ks| && ks[i] in m => m[ks[i]])
    }

    /** get_triggers: the (id, record) pairs in insertion order, ids 0, 1, 2, ... */
    function GetTriggers(): (items: seq<(int, Trigger)>)
      reads this
      requires Valid()
      ensures |items| == |queue|
      ensures forall i :: 0 <= i < |items| ==> items[i].0 == i && items[i].1 == queue[i]
    {
      var m, ks := queue, keys;
      seq(|ks|, i requires 0 <= i < |ks| && ks[i] in m => (ks[i], m[ks[i]]))
    }

    constructor (user: string, client: Kowalski)
      ensures Valid() && this.user == user && kowalski == client
      ensures queue == map[] && keys == []
    {
      this.user := user;
      kowalski := client;
      queue := map[];
      keys := [];
    }

    /** add_trigger_to_queue: rejects a name not starting with "ToO_" and
        leaves the queue as it was; otherwise stores the new record under
        id = len(queue) and keeps every earlier record. */
    method AddTriggerToQueue(
      triggerName: string, validityWindowStartMjd: real, validityWindowEndMjd: real,
      fieldId: seq<int>, filterId: seq<int>,
      requestId: int := 1, subprogramName: string := "ToO_Neutrino",
      exposureTime: int := 30, programId: int := 2, programPi: string := "Kulkarni")
      returns (r: Outcome<QueueError>)
      requires Valid()
      modifies this
      ensures Valid()
      ensures r.Fail? <==> !HasTooPrefix(triggerName)
      ensures r.Fail? ==> r.error == InvalidTriggerName(triggerName)
                          && queue == old(queue) && keys == old(keys)
      ensures r.Pass? ==>
                var id := |old(keys)|;
                var t := NewTrigger(user, triggerName, id, validityWindowStartMjd, validityWindowEndMjd,
                                    fieldId, filterId, requestId, subprogramName, exposureTime,
                                    programId, programPi);
                && id !in old(queue)
                && queue == old(queue)[id := t]
                && keys == old(keys) + [id]
                && Triggers() == old(Triggers()) + [t]
    {
      if !HasTooPrefix(triggerName) {
        return Fail(InvalidTriggerName(triggerName));
      }
      var triggerId := |queue|;
      var trigger := NewTrigger(user, triggerName, triggerId, validityWindowStartMjd, validityWindowEndMjd,
                                fieldId, filterId, requestId, subprogramName, exposureTime,
                                programId, programPi);
      NewTriggerWellFormed(user, triggerName, triggerId, validityWindowStartMjd, validityWindowEndMjd,
                           fieldId, filterId, requestId, subprogramName, exposureTime,
                           programId, programPi);
      queue := queue[triggerId := trigger];
      keys := keys + [triggerId];
      return Pass;
    }

    /** submit_queue: one PUT per record in insertion order; stops at the first
        non-success answer and raises, otherwise returns every answer. The
        local queue is not touched. */
    method SubmitQueue() returns (r: Result<seq<Response>, QueueError>)
      requires Valid()
      modifies kowalski
      ensures var n := |keys|;
              var replies := Replies(kowalski.reply, |old(kowalski.sent)|, n);
              var k := FirstFailure(replies);
              && kowalski.sent == old(kowalski.sent) + PutRequests(Triggers()[..if k < n then k + 1 else n])
              && (k == n ==> r == Success(replies))
              && (k < n ==> r == Failure(SubmitFailed))
    {
      var results: seq<Response> := [];
      ghost var c0 := |kowalski.sent|;
      ghost var ts := Triggers();
      var i := 0;
      while i < |keys|
        invariant 0 <= i <= |keys|
        invariant results == Replies(kowalski.reply, c0, i)
        invariant forall j :: 0 <= j < i ==> Succeeded(results[j])
        invariant kowalski.sent == old(kowalski.sent) + PutRequests(ts[..i])
      {
        var trigger := queue[keys[i]];
        var res := kowalski.Call(Put(trigger));
        assert ts[..i + 1] == ts[..i] + [trigger];
        if !Succeeded(res) {
          ghost var rs := Replies(kowalski.reply, c0, |keys|);
          assert forall j :: 0 <= j < i ==> rs[j] == results[j];
          FirstFailureIs(rs, i);
          return Failure(SubmitFailed);
        }
        results := results + [res];
        i := i + 1;
      }
      assert ts[..|keys|] == ts;
      FirstFailureIs(results, |keys|);
      return Success(results);
    }

    /** delete_queue: one DELETE per record in insertion order, all sent before
        any answer is examined; then raises naming the first record whose
        answer was not a success. The local queue is not touched. */
    method DeleteQueue() returns (r: Outcome<QueueError>)
      requires Valid()
      modifies kowalski
      ensures var n := |keys|;
              var replies := Replies(kowalski.reply, |old(kowalski.sent)|, n);
              var k := FirstFailure(replies);
              && kowalski.sent == old(kowalski.sent) + DeleteRequests(user, Triggers())
              && (k == n ==> r == Pass)
              && (k < n ==> r == Fail(DeleteFailed(Triggers()[k].queueName)))
    {
      var results: map<int, Response> := map[];
      ghost var c0 := |kowalski.sent|;
      ghost var ts := Triggers();
      var i := 0;
      while i < |keys|
        invariant 0 <= i <= |keys|
        invariant forall k :: k in results <==> 0 <= k < i
        invariant forall k :: 0 <= k < i ==> results[k] == kowalski.reply(c0 + k)
        invariant kowalski.sent == old(kowalski.sent) + DeleteRequests(user, ts[..i])
      {
        var trigger := queue[keys[i]];
        var res := kowalski.Call(Delete(user, trigger.queueName));
        assert ts[..i + 1] == ts[..i] + [trigger];
        results := results[keys[i] := res];
        i := i + 1;
      }
      assert ts[..|keys|] == ts;
      ghost var replies := Replies(kowalski.reply, c0, |keys|);
      i := 0;
      while i < |keys|
        invariant 0 <= i <= |keys|
        invariant forall j :: 0 <= j < i ==> Succeeded(replies[j])
      {
        var res := results[keys[i]];
        if !Succeeded(res) {
          FirstFailureIs(replies, i);
          return Fail(DeleteFailed(queue[keys[i]].queueName));
        }
        i := i + 1;
      }
      FirstFailureIs(replies, |keys|);
      return Pass;
    }

    /** delete_trigger: one DELETE for the given queue name. */
    method DeleteTrigger(triggerName: string) returns (r: Result<Response, QueueError>)
      modifies kowalski
      ensures kowalski.sent == old(kowalski.sent) + [Delete(user, triggerName)]
      ensures var res := kowalski.reply(|old(kowalski.sent)|);
              r == if Succeeded(res) then Success(res) else Failure(DeleteTriggerFailed)
    {
      var res := kowalski.Call(Delete(user, triggerName));
      if !Succeeded(res) {
        return Failure(DeleteTriggerFailed);
      }
      return Success(res);
    }

    /** get_all_queues: one GET; raises on a non-success status. */
    method GetAllQueues() returns (r: Result<Response, QueueError>)
      modifies kowalski
      ensures kowalski.sent == old(kowalski.sent) + [Get]
      ensures var res := kowalski.reply(|old(kowalski.sent)|);
              r == if Succeeded(res) then Success(res) else Failure(CallFailed(res.status, res.message))
    {
      var res := kowalski.Call(Get);
      if !Succeeded(res) {
        return Failure(CallFailed(res.status, res.message));
      }
      return Success(res);
    }

    /** get_all_queues_nameonly: the queue names of every entry, in order. */
    method GetAllQueuesNameOnly() returns (r: Result<seq<string>, QueueError>)
      modifies kowalski
      ensures kowalski.sent == old(kowalski.sent) + [Get]
      ensures var res := kowalski.reply(|old(kowalski.sent)|);
              r == if Succeeded(res) then Success(Names(res.data)) else Failure(CallFailed(res.status, res.message))
    {
      var res := kowalski.Call(Get);
      if !Succeeded(res) {
        return Failure(CallFailed(res.status, res.message));
      }
      return Success(Names(res.data));
    }

    /** get_too_queues: the entries flagged is_TOO, in order (the "data" list of the result). */
    method GetTooQueues() returns (r: Result<seq<QueueEntry>, QueueError>)
      modifies kowalski
      ensures kowalski.sent == old(kowalski.sent) + [Get]
      ensures var res := kowalski.reply(|old(kowalski.sent)|);
              r == if Succeeded(res) then Success(TooOnly(res.data)) else Failure(CallFailed(res.status, res.message))
    {
      var all := GetAllQueues();
      if all.Failure? {
        return Failure(all.error);
      }
      return Success(TooOnly(all.value.data));
    }

    /** get_too_queues_nameonly: the names of the ToO entries, in order. */
    method GetTooQueuesNameOnly() returns (r: Result<seq<string>, QueueError>)
      modifies kowalski
      ensures kowalski.sent == old(kowalski.sent) + [Get]
      ensures var res := kowalski.reply(|old(kowalski.sent)|);
              r == if Succeeded(res) then Success(Names(TooOnly(res.data))) else Failure(CallFailed(res.status, res.message))
    {
      var too := GetTooQueues();
      if too.Failure? {
        return Failure(too.error);
      }
      return Success(Names(too.value));
    }
  }

  /** No two records of a queue share a remote queue name. */
  lemma QueueNamesDistinct(q: Queue, i: int, j: int)
    requires q.Valid()
    requires 0 <= i < j < |q.keys|
    ensures q.queue[i].queueName != q.queue[j].queueName
  {
    assert i in q.queue && j in q.queue;
    var a :| HasTooPrefix(a) && q.queue[i].queueName == QueueName(a, i);
    var b :| HasTooPrefix(b) && q.queue[j].queueName == QueueName(b, j);
    if q.queue[i].queueName == q.queue[j].queueName {
      QueueNameInjective(a, i, b, j);
    }
  }

  /** Every queued record passes the TooRequest validation of planobs/models.py. */
  lemma QueuedTriggersAreValidRequests(q: Queue, i: int)
    requires q.Valid()
    requires 0 <= i < |q.keys|
    ensures Models.RequestValidation(q.queue[i].queueName, q.queue[i].validityWindowMjd, |q.queue[i].targets|) == {}
  {
    assert i in q.queue;
    WellFormedIsValidRequest(q.queue[i], q.user, i);
  }
}
