/**
 * A request/response channel over one GATT service. The client writes a
 * frame `[n] ++ request` to the request characteristic; the server hands
 * the request to its handler and, on success, indicates `[n] ++ reply` to
 * that device's response stream; the client takes the first response whose
 * first byte is `n`. `n` is a signed byte counter that wraps around.
 */
module RequestResponse {
  import opened Models
  import opened Collections

  /** The default service of the channel, 43a4be8f-507d-45d1-96fe-63d343da1cfb. */
  const DEFAULT_SERVICE: Uuid := 0x43a4be8f_507d_45d1_96fe_63d343da1cfb
  /** 927130da-ad5a-414e-a966-69296c136a75 */
  const REQUEST_CHARACTERISTIC: Uuid := 0x927130da_ad5a_414e_a966_69296c136a75
  /** daf1ea4e-3610-43fa-a2bc-cdf31ac4e236 */
  const RESPONSE_CHARACTERISTIC: Uuid := 0xdaf1ea4e_3610_43fa_a2bc_cdf31ac4e236

  // ---------------------------------------------------------------------
  // Frames.

  /** `byteArrayOf(n) + payload` */
  function Frame(n: Byte, payload: Data): (f: Data)
    ensures |f| == |payload| + 1
  {
    [n] + payload
  }

  /**
   * `value[0]` and `value.sliceArray(1 until value.size)`: the sequence
   * number and the payload; an empty frame has no byte 0.
   */
  function Split(value: Data): (r: Outcome<(Byte, Data)>)
    ensures r.Err? <==> value == []
    ensures r.Err? ==> r.error == IndexOutOfBounds
    ensures r.Ok? ==> |r.value.1| == |value| - 1
  {
    if value == [] then Err(IndexOutOfBounds) else Ok((value[0], value[1..]))
  }

  /** Splitting a frame gives back its number and payload. */
  lemma SplitFrame(n: Byte, payload: Data)
    ensures Split(Frame(n, payload)) == Ok((n, payload))
  {
    assert Frame(n, payload)[1..] == payload;
  }

  /** Every non-empty byte array is the frame of what it splits into. */
  lemma FrameSplit(value: Data)
    requires value != []
    ensures Split(value).Ok? && Frame(Split(value).value.0, Split(value).value.1) == value
  {
  }

  // ---------------------------------------------------------------------
  // The server.

  /** The channel's profile: the request and response characteristics under `service`. */
  function RequestProfile(service: Uuid): (p: ProfileDescription)
    ensures p.services.Keys == {service} && p.services[service].primary
    ensures p.services[service].characteristics.Keys == {REQUEST_CHARACTERISTIC, RESPONSE_CHARACTERISTIC}
  {
    ProfileDescription(map[service := ServiceDescription(
      "FauxStream", true,
      map[REQUEST_CHARACTERISTIC := CharacteristicDescription("request", CharacteristicProperties(writeWithoutResponse := true, write := true)),
          RESPONSE_CHARACTERISTIC := CharacteristicDescription("response", CharacteristicProperties(indicate := true, notify := true, read := true))])])
  }

  /** Requests come in by write and go out by notification or indication. */
  lemma RequestProfileProperties(service: Uuid)
    ensures var cs := RequestProfile(service).services[service].characteristics;
      && cs[REQUEST_CHARACTERISTIC].properties.write && cs[REQUEST_CHARACTERISTIC].properties.writeWithoutResponse
      && !cs[REQUEST_CHARACTERISTIC].properties.read && !cs[REQUEST_CHARACTERISTIC].properties.notify
      && cs[RESPONSE_CHARACTERISTIC].properties.indicate && cs[RESPONSE_CHARACTERISTIC].properties.notify
      && cs[RESPONSE_CHARACTERISTIC].properties.read && !cs[RESPONSE_CHARACTERISTIC].properties.write
  {
  }

  /** Stands for a `PublishSubject<Data>`. */
  type SubjectId = nat

  /** What a subject has emitted so far, and whether it has completed. */
  datatype Subject = Subject(emitted: seq<Data>, complete: bool)

  class BleRequestServer {
    const service: Uuid
    /** The application's request handler. */
    const handle: Data -> Outcome<Data>
    /** Device id -> its response stream. */
    var deviceSubjects: map<string, SubjectId>
    /** Every subject created so far. */
    var subjects: map<SubjectId, Subject>
    var nextSubject: nat
    var disposed: bool

    /**
     * Subject ids are handed out in order; each device has its own
     * subject; a subject still in `deviceSubjects` has not completed.
     */
    ghost predicate Valid()
      reads this
    {
      && (forall id :: id in subjects <==> 0 <= id < nextSubject)
      && (forall d :: d in deviceSubjects ==> deviceSubjects[d] in subjects && !subjects[deviceSubjects[d]].complete)
      && (forall d, e :: d in deviceSubjects && e in deviceSubjects && d != e ==> deviceSubjects[d] != deviceSubjects[e])
    }

    constructor(service: Uuid := DEFAULT_SERVICE, handle: Data -> Outcome<Data>)
      ensures Valid()
      ensures this.service == service && this.handle == handle
      ensures deviceSubjects == map[] && subjects == map[] && !disposed
    {
      this.service := service;
      this.handle := handle;
      deviceSubjects := map[];
      subjects := map[];
      nextSubject := 0;
      disposed := false;
    }

    function IsDisposed(): bool
      reads this
    {
      disposed
    }

    /** `deviceSubjects.getOrPut(id) { PublishSubject.create() }` */
    method SubjectFor(id: string) returns (s: SubjectId)
      requires Valid()
      modifies this`deviceSubjects, this`subjects, this`nextSubject
      ensures Valid()
      ensures id in deviceSubjects && deviceSubjects[id] == s
      ensures id in old(deviceSubjects) ==> deviceSubjects == old(deviceSubjects) && subjects == old(subjects)
      ensures id !in old(deviceSubjects) ==>
        && s !in old(subjects)
        && deviceSubjects == old(deviceSubjects)[id := s]
        && subjects == old(subjects)[s := Subject([], false)]
    {
      if id in deviceSubjects {
        s := deviceSubjects[id];
      } else {
        s := nextSubject;
        subjects := subjects[s := Subject([], false)];
        deviceSubjects := deviceSubjects[id := s];
        nextSubject := nextSubject + 1;
      }
    }

    /** `onSubscribe`: the device's response stream, created on first use. */
    method OnSubscribe(from: DeviceInfo, service: Uuid, characteristic: Uuid) returns (r: SubjectId)
      requires Valid()
      modifies this`deviceSubjects, this`subjects, this`nextSubject
      ensures Valid()
      ensures from.id in deviceSubjects && deviceSubjects[from.id] == r
      ensures from.id in old(deviceSubjects) ==> deviceSubjects == old(deviceSubjects) && subjects == old(subjects)
      ensures from.id !in old(deviceSubjects) ==>
        && r !in old(subjects)
        && deviceSubjects == old(deviceSubjects)[from.id := r]
        && subjects == old(subjects)[r := Subject([], false)]
    {
      r := SubjectFor(from.id);
    }

    /**
     * `onWrite`: takes the device's stream (creating it), splits the frame,
     * and on the handler's success emits `[n] ++ reply` on the stream.
     * An empty frame fails after the stream is created; a failing handler
     * emits nothing; either way the write itself succeeds.
     */
    method OnWrite(from: DeviceInfo, service: Uuid, characteristic: Uuid, value: Data) returns (r: Outcome<()>)
      requires Valid()
      modifies this`deviceSubjects, this`subjects, this`nextSubject
      ensures Valid()
      ensures from.id in deviceSubjects
      ensures from.id !in old(deviceSubjects) ==> deviceSubjects[from.id] !in old(subjects)
      ensures forall d :: d in old(deviceSubjects) ==> d in deviceSubjects && deviceSubjects[d] == old(deviceSubjects)[d]
      ensures deviceSubjects.Keys == old(deviceSubjects).Keys + {from.id}
      ensures r == if value == [] then Err(IndexOutOfBounds) else Ok(())
      ensures var s := deviceSubjects[from.id];
        var before := if s in old(subjects) then old(subjects)[s].emitted else [];
        && subjects.Keys == old(subjects).Keys + {s}
        && (forall t :: t in old(subjects) && t != s ==> subjects[t] == old(subjects)[t])
        && !subjects[s].complete
        && subjects[s].emitted == before + Emission(value, handle)
    {
      var s := SubjectFor(from.id);
      if value == [] {
        r := Err(IndexOutOfBounds);
        return;
      }
      var requestNum := value[0];
      var requestData := value[1..];
      match handle(requestData) {
        case Ok(reply) =>
          subjects := subjects[s := subjects[s].(emitted := subjects[s].emitted + [Frame(requestNum, reply)])];
        case Err(_) =>
      }
      r := Ok(());
    }

    /** `onRead`: reads are not supported on this channel. */
    method OnRead(from: DeviceInfo, service: Uuid, characteristic: Uuid) returns (r: Outcome<Data>)
      ensures r == Err(ResponseException(RequestNotSupported))
    {
      r := Err(ResponseException(RequestNotSupported));
    }

    /** `onDisconnect`: removes and completes that device's stream, if it has one. */
    method OnDisconnect(from: DeviceInfo)
      requires Valid()
      modifies this`deviceSubjects, this`subjects
      ensures Valid()
      ensures deviceSubjects == old(deviceSubjects) - {from.id}
      ensures from.id !in old(deviceSubjects) ==> subjects == old(subjects)
      ensures from.id in old(deviceSubjects) ==>
        var s := old(deviceSubjects)[from.id];
        subjects == old(subjects)[s := old(subjects)[s].(complete := true)]
    {
      if from.id in deviceSubjects {
        var s := deviceSubjects[from.id];
        deviceSubjects := deviceSubjects - {from.id};
        subjects := subjects[s := subjects[s].(complete := true)];
      } else {
        assert deviceSubjects - {from.id} == deviceSubjects;
      }
    }

    /** `dispose`: completes every device's stream, forgets them all, and marks the server disposed. */
    method Dispose()
      requires Valid()
      modifies this`deviceSubjects, this`subjects, this`disposed
      ensures Valid() && IsDisposed()
      ensures deviceSubjects == map[]
      ensures subjects.Keys == old(subjects).Keys
      ensures forall t :: t in subjects ==>
        && subjects[t].emitted == old(subjects)[t].emitted
        && subjects[t].complete == (old(subjects)[t].complete || t in old(deviceSubjects).Values)
    {
      var open := Enumerate(deviceSubjects.Values);
      ghost var before := subjects;
      assert forall t :: t in open ==> t in subjects by {
        forall t | t in open
          ensures t in subjects
        {
          var d :| d in deviceSubjects && deviceSubjects[d] == t;
        }
      }
      for i := 0 to |open|
        invariant subjects.Keys == before.Keys
        invariant forall t :: t in subjects ==>
          && subjects[t].emitted == before[t].emitted
          && subjects[t].complete == (before[t].complete || t in open[..i])
      {
        var t := open[i];
        subjects := subjects[t := subjects[t].(complete := true)];
        assert open[..i + 1] == open[..i] + [t];
      }
      assert open[..|open|] == open;
      deviceSubjects := map[];
      disposed := true;
    }
  }

  /** What a non-empty write adds to the device's stream: its reply frame, or nothing if the handler fails. */
  function Emission(value: Data, handle: Data -> Outcome<Data>): (e: seq<Data>)
    ensures value == [] ==> e == []
    ensures value != [] && handle(value[1..]).Ok? ==> e == [Frame(value[0], handle(value[1..]).value)]
    ensures value != [] && handle(value[1..]).Err? ==> e == []
  {
    if value == [] then []
    else match handle(value[1..])
      case Ok(reply) => [Frame(value[0], reply)]
      case Err(_) => []
  }

  /** With an echo handler, a request frame comes back unchanged. */
  lemma EchoReturnsFrame(value: Data)
    requires value != []
    ensures Emission(value, (x: Data) => Ok(x)) == [value]
  {
    assert Frame(value[0], value[1..]) == value;
  }

  /** The echo of `[0x05, 0x41, 0x42]`. */
  lemma EchoExample()
    ensures Emission([0x05, 0x41, 0x42], (x: Data) => Ok(x)) == [[0x05, 0x41, 0x42]]
  {
    EchoReturnsFrame([0x05, 0x41, 0x42]);
  }

  // ---------------------------------------------------------------------
  // The client.

  /** `number++` on a Kotlin `Byte`: 127 wraps around to -128. */
  function Inc(n: Byte): (r: Byte)
    ensures r as int == (n as int + 129) % 256 - 128
  {
    if n == 127 then -128 else n + 1
  }

  /** The request number after `k` requests starting from `n`. */
  function After(n: Byte, k: nat): (r: Byte)
  {
    if k == 0 then n else Inc(After(n, k - 1))
  }

  /** `k` requests advance the counter by `k` modulo 256. */
  lemma {:induction false} AfterIsModular(n: Byte, k: nat)
    ensures After(n, k) as int == (n as int + 128 + k) % 256 - 128
  {
    if k > 0 {
      AfterIsModular(n, k - 1);
    }
  }

  /**
   * Any 256 consecutive requests use 256 different numbers, and the 257th
   * reuses the first one: nothing stops two outstanding requests sharing
   * a number.
   */
  lemma NumbersRepeatAfter256(n: Byte, i: nat, j: nat)
    requires i < j < i + 256
    ensures After(n, i) != After(n, j)
    ensures After(n, i + 256) == After(n, i)
  {
    var a, b := n as int + 128 + i, n as int + 128 + j;
    AfterIsModular(n, i);
    AfterIsModular(n, j);
    AfterIsModular(n, i + 256);
    assert After(n, i) as int == a % 256 - 128;
    assert After(n, j) as int == b % 256 - 128;
    assert After(n, i + 256) as int == (a + 256) % 256 - 128;
    ModDistinct(a, b);
    ModPeriod(a);
  }

  lemma ModDistinct(a: int, b: int)
    requires a < b < a + 256
    ensures a % 256 != b % 256
  {
    var qa, qb := a / 256, b / 256;
    assert a == 256 * qa + a % 256;
    assert b == 256 * qb + b % 256;
  }

  lemma ModPeriod(a: int)
    ensures (a + 256) % 256 == a % 256
  {
    var q := a / 256;
    assert a == 256 * q + a % 256;
    assert a + 256 == 256 * (q + 1) + a % 256;
  }

  /**
   * The reply to request `n` among the frames indicated on the response
   * characteristic: `filter { it[0] == n }.take(1)` with the number
   * stripped. An empty frame met first fails, as `it[0]` throws; a stream
   * that ends with no match fails with no element.
   */
  function MatchReply(responses: seq<Data>, n: Byte): (r: Outcome<Data>)
    ensures r.Ok? ==> exists i :: 0 <= i < |responses| && responses[i] == Frame(n, r.value)
    ensures r == Err(NoSuchElement) ==> forall f :: f in responses ==> f != [] && f[0] != n
    ensures r.Err? ==> r.error == IndexOutOfBounds || r.error == NoSuchElement
    ensures responses != [] && responses[0] == [] ==> r == Err(IndexOutOfBounds)
  {
    if responses == [] then Err(NoSuchElement)
    else
      var f := responses[0];
      if f == [] then Err(IndexOutOfBounds)
      else if f[0] == n then
        assert responses[0] == Frame(n, f[1..]);
        Ok(f[1..])
      else
        var r := MatchReply(responses[1..], n);
        assert r.Ok? ==> exists i :: 0 <= i < |responses| && responses[i] == Frame(n, r.value) by {
          if r.Ok? {
            var i :| 0 <= i < |responses[1..]| && responses[1..][i] == Frame(n, r.value);
            assert responses[i + 1] == Frame(n, r.value);
          }
        }
        assert r == Err(NoSuchElement) ==> forall g :: g in responses ==> g != [] && g[0] != n by {
          if r == Err(NoSuchElement) {
            forall g | g in responses
              ensures g != [] && g[0] != n
            {
              if g != f {
                assert g in responses[1..];
              }
            }
          }
        }
        r
  }

  /** A reply to `n` at the head of the stream is taken, number stripped. */
  lemma MatchOwnReply(n: Byte, payload: Data, rest: seq<Data>)
    ensures MatchReply([Frame(n, payload)] + rest, n) == Ok(payload)
  {
    assert ([Frame(n, payload)] + rest)[0] == Frame(n, payload);
    assert Frame(n, payload)[1..] == payload;
  }

  /** Replies to other requests that arrive first are passed over. */
  lemma {:induction false} OtherRepliesSkipped(others: seq<Data>, rest: seq<Data>, n: Byte)
    requires forall f :: f in others ==> f != [] && f[0] != n
    ensures MatchReply(others + rest, n) == MatchReply(rest, n)
  {
    if others != [] {
      assert forall f :: f in others[1..] ==> f in others;
      assert others[0] in others;
      assert (others + rest)[0] == others[0];
      assert (others + rest)[1..] == others[1..] + rest;
      OtherRepliesSkipped(others[1..], rest, n);
    } else {
      assert others + rest == rest;
    }
  }

  /**
   * End to end: when the server's handler answers `reply`, the client
   * whose request carried number `n` receives `reply`, whatever replies to
   * other numbers were indicated before it.
   */
  lemma RequestRoundTrip(n: Byte, request: Data, handle: Data -> Outcome<Data>, others: seq<Data>, rest: seq<Data>)
    requires handle(request).Ok?
    requires forall f :: f in others ==> f != [] && f[0] != n
    ensures var reply := Emission(Frame(n, request), handle);
      MatchReply(others + reply + rest, n) == Ok(handle(request).value)
  {
    var frame := Frame(n, request);
    assert frame[1..] == request && frame[0] == n;
    var reply := Emission(frame, handle);
    assert reply == [Frame(n, handle(request).value)];
    assert others + reply + rest == others + ([Frame(n, handle(request).value)] + rest);
    OtherRepliesSkipped(others, [Frame(n, handle(request).value)] + rest, n);
    MatchOwnReply(n, handle(request).value, rest);
  }

  /**
   * The reply when the indication stream, after delivering `responses`,
   * completes (`failure == None`) or fails with `failure`. `take(1)` stops
   * listening at the first match, so a later failure never replaces a
   * reply; a failure met before any match is the request's failure.
   */
  function AwaitReply(responses: seq<Data>, n: Byte, failure: Option<Error>): (r: Outcome<Data>)
    ensures failure == None ==> r == MatchReply(responses, n)
    ensures r.Ok? <==> MatchReply(responses, n).Ok?
    ensures r.Ok? ==> r == MatchReply(responses, n)
    ensures failure.Some? && MatchReply(responses, n) == Err(NoSuchElement) ==> r == Err(failure.value)
  {
    var m := MatchReply(responses, n);
    if m == Err(NoSuchElement) && failure.Some? then Err(failure.value) else m
  }

  /** A reply already delivered wins over a failure of the stream after it. */
  lemma ReplyBeforeFailure(n: Byte, others: seq<Data>, payload: Data, rest: seq<Data>, failure: Error)
    requires forall f :: f in others ==> f != [] && f[0] != n
    ensures AwaitReply(others + [Frame(n, payload)] + rest, n, Some(failure)) == Ok(payload)
  {
    assert others + [Frame(n, payload)] + rest == others + ([Frame(n, payload)] + rest);
    OtherRepliesSkipped(others, [Frame(n, payload)] + rest, n);
    MatchOwnReply(n, payload, rest);
  }

  /** Stands for an `RxBleConnection`. */
  type ConnectionId = nat

  class BleRequestClient {
    const connection: ConnectionId
    const service: Uuid
    /** The number the next request will carry. */
    var number: Byte
    /** The frames passed to `writeCharacteristic` on the request characteristic, in order. */
    var written: seq<Data>

    constructor(connection: ConnectionId, service: Uuid := DEFAULT_SERVICE)
      ensures this.connection == connection && this.service == service
      ensures number == 0 && written == []
    {
      this.connection := connection;
      this.service := service;
      number := 0;
      written := [];
    }

    /**
     * `request`: takes the current number and advances it, writes
     * `[n] ++ data`, and answers with the first reply numbered `n` among
     * the `responses` indicated after the write. `write` is how the write
     * ends and `failure` how the indication stream ends after `responses`;
     * a failed write fails the request, and the counter has moved on anyway.
     */
    method Request(data: Data, write: Outcome<()>, responses: seq<Data>, failure: Option<Error>) returns (r: Outcome<Data>)
      modifies this`number, this`written
      ensures number == Inc(old(number))
      ensures written == old(written) + [Frame(old(number), data)]
      ensures write.Err? ==> r == Err(write.error)
      ensures write.Ok? ==> r == AwaitReply(responses, old(number), failure)
    {
      var reqNumber := number;
      number := Inc(number);
      written := written + [Frame(reqNumber, data)];
      if write.Err? {
        r := Err(write.error);
      } else {
        r := AwaitReply(responses, reqNumber, failure);
      }
    }
  }

  /** The `allConnections` registry: one client per connection. */
  class RequestClients {
    var allConnections: map<ConnectionId, BleRequestClient>

    /** Each connection has a client of its own. */
    ghost predicate Valid()
      reads this
    {
      forall j, k :: j in allConnections && k in allConnections && j != k ==> allConnections[j] != allConnections[k]
    }

    constructor()
      ensures Valid()
      ensures allConnections == map[]
    {
      allConnections := map[];
    }

    /** `get`: the connection's client, created on first use. */
    method Get(connection: ConnectionId, service: Uuid := DEFAULT_SERVICE) returns (c: BleRequestClient)
      requires Valid()
      modifies this
      ensures Valid()
      ensures connection in old(allConnections) ==> c == old(allConnections)[connection] && allConnections == old(allConnections)
      ensures connection !in old(allConnections) ==>
        && fresh(c) && c.number == 0 && c.written == [] && c.service == service
        && allConnections == old(allConnections)[connection := c]
    {
      if connection in allConnections {
        c := allConnections[connection];
      } else {
        c := new BleRequestClient(connection, service);
        allConnections := allConnections[connection := c];
      }
    }

    /** The response stream of `connection` completed: its client is forgotten. */
    method OnResponsesComplete(connection: ConnectionId)
      requires Valid()
      modifies this
      ensures Valid()
      ensures allConnections == old(allConnections) - {connection}
    {
      allConnections := allConnections - {connection};
    }

    /**
     * `RxBleConnection.request`: the connection's client, created on first
     * use, makes the request; every other client is left as it was.
     */
    method Request(connection: ConnectionId, data: Data, write: Outcome<()>, responses: seq<Data>, failure: Option<Error>,
                   service: Uuid := DEFAULT_SERVICE) returns (r: Outcome<Data>)
      requires Valid()
      modifies this, if connection in allConnections then {allConnections[connection]} else {}
      ensures Valid()
      ensures connection in allConnections
      ensures var c := allConnections[connection];
        var n := old(if connection in allConnections then allConnections[connection].number else 0);
        && (connection in old(allConnections) ==> c == old(allConnections)[connection] && allConnections == old(allConnections))
        && (connection !in old(allConnections) ==> fresh(c) && c.service == service && allConnections == old(allConnections)[connection := c])
        && c.number == Inc(n)
        && c.written == old(if connection in allConnections then allConnections[connection].written else []) + [Frame(n, data)]
        && (write.Err? ==> r == Err(write.error))
        && (write.Ok? ==> r == AwaitReply(responses, n, failure))
      ensures forall k :: k in old(allConnections) && k != connection ==>
        && k in allConnections && allConnections[k] == old(allConnections[k])
        && allConnections[k].number == old(allConnections[k].number)
        && allConnections[k].written == old(allConnections[k].written)
    {
      var c := Get(connection, service);
      r := c.Request(data, write, responses, failure);
    }
  }
}
