/** The transport worker dispatcher as its `handle_data` test drives it: a
    factory that numbers the applications it makes, dummy applications that
    write their number into a shared receive buffer, and a dispatcher that
    routes by peer endpoint and creates a worker on first contact. */
module TransportWorkers {
  import opened Common

  /** `ip_endpoint`: the eight 16-bit groups of an IPv6 address and a port. */
  datatype IpEndpoint = IpEndpoint(address: seq<nat>, port: nat)

  /** The shared `std::vector<byte>` behind the test's `shared_ptr`. */
  class ReceiveBuffer {
    var bytes: seq<Byte>

    constructor()
      ensures bytes == []
    {
      bytes := [];
    }

    /** `buf->clear()`. */
    method Clear()
      modifies this
      ensures bytes == []
    {
      bytes := [];
    }
  }

  /** `dummy_application`: its buffer and its `uint8_t` id. */
  class DummyApplication {
    const buf: ReceiveBuffer
    const id: Byte

    constructor(buf: ReceiveBuffer, id: Byte)
      ensures this.buf == buf && this.id == id
    {
      this.buf := buf;
      this.id := id;
    }

    /** `init`: always succeeds and touches nothing. */
    method Init() returns (err: Sec)
      ensures err == NoError
    {
      err := NoError;
    }

    /** `handle_data`: appends the id to the buffer, whatever the bytes. */
    method HandleData(data: seq<Byte>)
      modifies buf
      ensures buf.bytes == old(buf.bytes) + [id]
    {
      buf.bytes := buf.bytes + [id];
    }

    /** `write_message`: appends the id to the buffer, whatever the message. */
    method WriteMessage()
      modifies buf
      ensures buf.bytes == old(buf.bytes) + [id]
    {
      buf.bytes := buf.bytes + [id];
    }
  }

  /** `dummy_application_factory`: hands its buffer to every application it
      makes and numbers them with the `uint8_t` counter `application_cnt_`. */
  class DummyApplicationFactory {
    const buf: ReceiveBuffer
    var applicationCnt: Byte

    constructor(buf: ReceiveBuffer)
      ensures this.buf == buf && applicationCnt == 0
    {
      this.buf := buf;
      applicationCnt := 0;
    }

    /** `make()`: the id is the counter before the post-increment, which
        wraps around at 256. */
    method Make() returns (app: DummyApplication)
      modifies this
      ensures fresh(app) && app.buf == buf && app.id == old(applicationCnt)
      ensures applicationCnt == (old(applicationCnt) + 1) % 256
    {
      app := new DummyApplication(buf, applicationCnt);
      applicationCnt := (applicationCnt + 1) % 256;
    }
  }

  /** `transport_worker_dispatcher<dummy_application_factory, ip_endpoint>`:
      the workers by endpoint and by node. */
  class TransportWorkerDispatcher {
    const factory: DummyApplicationFactory
    var workersById: map<IpEndpoint, DummyApplication>
    var workersByNode: map<NodeId, DummyApplication>

    /** Every worker came from the factory, which made one per endpoint and
        so has counted them; until the counter wraps, the ids are the
        registration indexes and differ between endpoints. */
    predicate Valid()
      reads this, factory
    {
      && factory.applicationCnt == |workersById| % 256
      && (forall e :: e in workersById ==> workersById[e].buf == factory.buf)
      && IdsAreIndexes(workersById)
    }

    constructor(factory: DummyApplicationFactory)
      requires factory.applicationCnt == 0
      ensures this.factory == factory && workersById == map[] && workersByNode == map[] && Valid()
    {
      this.factory := factory;
      workersById := map[];
      workersByNode := map[];
    }

    /** The worker for `ep`: the registered one, or a new one from the
        factory, registered under `ep` and initialised. */
    method EnsureWorker(ep: IpEndpoint) returns (w: DummyApplication)
      requires Valid()
      modifies this, factory
      ensures Valid() && workersByNode == old(workersByNode)
      ensures ep in workersById && w == workersById[ep] && w.buf == factory.buf
      ensures ep in old(workersById) ==>
        w == old(workersById[ep]) && workersById == old(workersById) && factory.applicationCnt == old(factory.applicationCnt)
      ensures ep !in old(workersById) ==>
        fresh(w) && w.id == old(factory.applicationCnt) && workersById == old(workersById)[ep := w]
    {
      if ep in workersById {
        w := workersById[ep];
      } else {
        w := factory.Make();
        var _ := w.Init();
        IdsAfterInsert(workersById, ep, w);
        workersById := workersById[ep := w];
      }
    }

    /** `add_new_worker(node, ep)`: idempotent; only an unseen endpoint
        makes the factory produce an application. */
    method AddNewWorker(node: NodeId, ep: IpEndpoint) returns (w: DummyApplication)
      requires Valid()
      modifies this, factory
      ensures Valid()
      ensures ep in workersById && w == workersById[ep]
      ensures ep in old(workersById) ==>
        && w == old(workersById[ep]) && workersById == old(workersById)
        && workersByNode == old(workersByNode) && factory.applicationCnt == old(factory.applicationCnt)
      ensures ep !in old(workersById) ==>
        && fresh(w) && w.id == old(factory.applicationCnt)
        && workersById == old(workersById)[ep := w]
        && workersByNode == (if node in old(workersByNode) then old(workersByNode) else old(workersByNode)[node := w])
    {
      var known := ep in workersById;
      w := EnsureWorker(ep);
      if !known && node !in workersByNode {
        workersByNode := workersByNode[node := w];
      }
    }

    /** `handle_data(parent, bytes, ep)`: the worker for `ep`, created on
        first contact, appends its id; nothing else changes. */
    method HandleData(ep: IpEndpoint, data: seq<Byte>)
      requires Valid()
      modifies this, factory, factory.buf
      ensures Valid() && workersByNode == old(workersByNode)
      ensures ep in workersById
      ensures factory.buf.bytes == old(factory.buf.bytes) + [workersById[ep].id]
      ensures ep in old(workersById) ==>
        workersById == old(workersById) && factory.applicationCnt == old(factory.applicationCnt)
      ensures ep !in old(workersById) ==>
        && workersById[ep].id == old(factory.applicationCnt)
        && workersById == old(workersById)[ep := workersById[ep]]
    {
      var w := EnsureWorker(ep);
      w.HandleData(data);
    }
  }

  /** Until the counter wraps, the ids of a worker map are its
      registration indexes; adding a worker numbered by the map's size keeps
      them so. */
  predicate IdsAreIndexes(m: map<IpEndpoint, DummyApplication>)
  {
    |m| <= 256 ==>
      && (forall e :: e in m ==> m[e].id < |m|)
      && (forall e1, e2 :: e1 in m && e2 in m && e1 != e2 ==> m[e1].id != m[e2].id)
  }

  lemma IdsAfterInsert(m: map<IpEndpoint, DummyApplication>, ep: IpEndpoint, w: DummyApplication)
    requires ep !in m && IdsAreIndexes(m) && w.id == |m| % 256
    ensures |m[ep := w]| == |m| + 1 && IdsAreIndexes(m[ep := w])
  {
    assert |m[ep := w]| == |m| + 1;
  }

  /** One row of the fixture's `test_data`. */
  datatype TestCase = TestCase(workerId: Byte, node: NodeId, ep: IpEndpoint)

  /** The four peers of the fixture. */
  const TestData: seq<TestCase> := [
    TestCase(0, NodeId("http:file"), IpEndpoint([0, 0, 0, 0, 0, 0, 0, 1], 1)),
    TestCase(1, NodeId("http:file?a=1&b=2"), IpEndpoint([0xfe80, 0, 0, 0, 0, 0, 2, 0x34], 12345)),
    TestCase(2, NodeId("http:file#42"), IpEndpoint([0x1234, 0, 0, 0, 0, 0, 0, 0x17], 4444)),
    TestCase(3, NodeId("http:file?a=1&b=2#42"), IpEndpoint([0x2332, 0, 0, 0, 0, 0, 0, 1], 12))
  ]

  /** The peers' endpoints are pairwise distinct. */
  predicate DistinctEndpoints(cases: seq<TestCase>)
  {
    forall i, j :: 0 <= i < j < |cases| ==> cases[i].ep != cases[j].ep
  }

  /** The first `n` peers of `cases` are registered and peer `i` has the
      worker with id `i`. */
  predicate RegisteredUpTo(d: TransportWorkerDispatcher, cases: seq<TestCase>, n: nat)
    requires n <= |cases|
    reads d
  {
    forall i :: 0 <= i < n ==> cases[i].ep in d.workersById && d.workersById[cases[i].ep].id == i
  }

  /** With the first `n` distinct peers registered, and nothing else, peer
      `n` is new to the dispatcher. */
  lemma NextPeerIsNew(d: TransportWorkerDispatcher, cases: seq<TestCase>, n: nat)
    requires d.Valid() && |d.workersById| == n && n < |cases| <= 256
    requires DistinctEndpoints(cases) && RegisteredUpTo(d, cases, n)
    ensures cases[n].ep !in d.workersById
  {
    forall e | e in d.workersById
      ensures e != cases[n].ep
    {
      var k := d.workersById[e].id;
      assert d.workersById[cases[k].ep].id == k;
    }
  }

  /** `add_new_workers`: registers the peers in list order; on a fresh
      dispatcher, peer `i` gets the worker with id `i`. */
  method AddNewWorkers(d: TransportWorkerDispatcher, cases: seq<TestCase>)
    requires d.Valid() && d.workersById == map[]
    requires DistinctEndpoints(cases) && |cases| <= 256
    modifies d, d.factory
    ensures d.Valid() && |d.workersById| == |cases|
    ensures Registered(d, cases)
  {
    var i := 0;
    while i < |cases|
      invariant 0 <= i <= |cases|
      invariant d.Valid() && |d.workersById| == i
      invariant RegisteredUpTo(d, cases, i)
    {
      RegisterNext(d, cases, i);
      i := i + 1;
    }
  }

  /** One round of the loop: `add_new_worker` for peer `n` gives it the
      worker with id `n`. */
  method RegisterNext(d: TransportWorkerDispatcher, cases: seq<TestCase>, n: nat)
    requires d.Valid() && |d.workersById| == n && n < |cases| <= 256
    requires DistinctEndpoints(cases) && RegisteredUpTo(d, cases, n)
    modifies d, d.factory
    ensures d.Valid() && |d.workersById| == n + 1 && RegisteredUpTo(d, cases, n + 1)
  {
    NextPeerIsNew(d, cases, n);
    ghost var before := d.workersById;
    var w := d.AddNewWorker(cases[n].node, cases[n].ep);
    assert d.workersById == before[cases[n].ep := w];
    assert |d.workersById| == n + 1;
    forall j | 0 <= j < n + 1
      ensures cases[j].ep in d.workersById && d.workersById[cases[j].ep].id == j
    {
      if j < n {
        assert cases[j].ep != cases[n].ep;
      }
    }
  }

  /** `CHECK_HANDLE_DATA`: routes one call and takes the buffer's contents
      before clearing it. */
  method CheckHandleData(d: TransportWorkerDispatcher, ep: IpEndpoint) returns (observed: seq<Byte>)
    requires d.Valid()
    modifies d, d.factory, d.factory.buf
    ensures d.Valid() && ep in d.workersById
    ensures ep in old(d.workersById) ==> d.workersById == old(d.workersById)
    ensures ep !in old(d.workersById) ==>
      && d.workersById == old(d.workersById)[ep := d.workersById[ep]]
      && |d.workersById| == |old(d.workersById)| + 1
      && d.workersById[ep].id == |old(d.workersById)| % 256
    ensures observed == old(d.factory.buf.bytes) + [d.workersById[ep].id]
    ensures d.factory.buf.bytes == []
  {
    ghost var before := d.workersById;
    d.HandleData(ep, []);
    if ep !in before {
      assert |before[ep := d.workersById[ep]]| == |before| + 1;
    }
    observed := d.factory.buf.bytes;
    d.factory.buf.Clear();
  }

  /** The peers of `cases` are registered and peer `i` has the worker with
      id `i`. */
  predicate Registered(d: TransportWorkerDispatcher, cases: seq<TestCase>)
    reads d
  {
    forall i :: 0 <= i < |cases| ==> cases[i].ep in d.workersById && d.workersById[cases[i].ep].id == i
  }

  /** One `CHECK_HANDLE_DATA` for a registered peer: the buffer holds
      exactly that peer's worker id and the registration stays. */
  method CheckPeer(d: TransportWorkerDispatcher, cases: seq<TestCase>, i: nat) returns (observed: seq<Byte>)
    requires d.Valid() && Registered(d, cases) && i < |cases| && d.factory.buf.bytes == []
    modifies d, d.factory, d.factory.buf
    ensures d.Valid() && Registered(d, cases) && d.factory.buf.bytes == []
    ensures observed == [i]
  {
    var ep := cases[i].ep;
    assert ep in d.workersById;
    observed := CheckHandleData(d, ep);
  }

  /** The fixture's endpoints differ pairwise. */
  lemma TestDataDistinct()
    ensures |TestData| == 4 && DistinctEndpoints(TestData)
    ensures forall i :: 0 <= i < |TestData| ==> TestData[i].workerId == i
  {
  }

  /** `CAF_TEST(handle_data)`: after registering the four peers, each call
      for peer `i` leaves exactly `[i]` in the buffer. */
  method HandleDataTest() returns (observed: seq<seq<Byte>>)
    ensures observed == [[0], [1], [2], [3]]
  {
    var buf := new ReceiveBuffer();
    var factory := new DummyApplicationFactory(buf);
    var d := new TransportWorkerDispatcher(factory);
    var cases := TestData;
    TestDataDistinct();
    AddNewWorkers(d, cases);
    var got0 := CheckPeer(d, cases, 0);
    var got1 := CheckPeer(d, cases, 1);
    var got2 := CheckPeer(d, cases, 2);
    var got3 := CheckPeer(d, cases, 3);
    observed := [got0, got1, got2, got3];
  }

  /** Routing by endpoint: two endpoints the dispatcher has not seen get
      workers with consecutive, hence different, ids on first contact, and
      data for one never reaches the other's worker. */
  method DistinctPeersDistinctWorkers(d: TransportWorkerDispatcher, a: IpEndpoint, b: IpEndpoint)
      returns (first: seq<Byte>, second: seq<Byte>)
    requires d.Valid() && a != b && a !in d.workersById && b !in d.workersById
    requires |d.workersById| < 255
    modifies d, d.factory, d.factory.buf
    ensures first == old(d.factory.buf.bytes) + [|old(d.workersById)|]
    ensures second == [|old(d.workersById)| + 1]
    ensures a in d.workersById && b in d.workersById && d.workersById[a] != d.workersById[b]
  {
    ghost var n := |d.workersById|;
    first := CheckHandleData(d, a);
    ghost var wa := d.workersById[a];
    assert n % 256 == n && (n + 1) % 256 == n + 1;
    assert wa.id == n;
    assert b !in d.workersById;
    ghost var mid := d.workersById;
    assert |mid| == n + 1;
    second := CheckHandleData(d, b);
    assert d.workersById[b].id == |mid| % 256;
    assert d.workersById[a] == wa;
  }
}
