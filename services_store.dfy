/** The service catalogue store behind the services management screen:
    create (newest first), update by id, delete by id. */
module ServicesStoreService {
  import Text
  import Lists

  datatype Priority = Low | Medium | High

  /** `updatedAt` is an opaque timestamp. */
  datatype Service = Service(
    id: string,
    name: string,
    description: string,
    expectedDurationMin: int,
    priority: Priority,
    updatedAt: string)

  /** A service without its id and timestamp: the input of `create` and the
      patch of `update`. */
  datatype ServiceDraft = ServiceDraft(
    name: string,
    description: string,
    expectedDurationMin: int,
    priority: Priority)

  /** The id "SVC-<n>" for the random `n = Math.floor(1000 + Math.random() * 9000)`. */
  function MakeId(n: int): (id: string)
    requires 1000 <= n <= 9999
    ensures |id| == 8 && id[..4] == "SVC-"
    ensures Text.IsNumeral(id[4..]) && Text.DigitsValue(id[4..]) == n
  {
    Text.NatToStringLength(n, 3);
    Text.NatToStringRoundTrip(n);
    var id := "SVC-" + Text.NatToString(n);
    assert id[4..] == Text.NatToString(n);
    id
  }

  /** The service `create` stores: the input's fields with a fresh id. */
  function NewService(input: ServiceDraft, n: int, now: string): (s: Service)
    requires 1000 <= n <= 9999
    ensures s.id == MakeId(n) && s.updatedAt == now
    ensures ServiceDraft(s.name, s.description, s.expectedDurationMin, s.priority) == input
  {
    Service(MakeId(n), input.name, input.description, input.expectedDurationMin, input.priority, now)
  }

  /** `{ ...s, ...patch, updatedAt: now }`. */
  function Apply(s: Service, patch: ServiceDraft, now: string): (r: Service)
    ensures r.id == s.id && r.updatedAt == now
    ensures ServiceDraft(r.name, r.description, r.expectedDurationMin, r.priority) == patch
  {
    Service(s.id, patch.name, patch.description, patch.expectedDurationMin, patch.priority, now)
  }

  /** The list `update(id, patch)` leaves behind. */
  function Patched(list: seq<Service>, id: string, patch: ServiceDraft, now: string): (r: seq<Service>)
    ensures |r| == |list|
    ensures forall i :: 0 <= i < |list| && list[i].id != id ==> r[i] == list[i]
    ensures forall i :: 0 <= i < |list| && list[i].id == id ==>
              r[i].id == id && r[i].updatedAt == now &&
              ServiceDraft(r[i].name, r[i].description, r[i].expectedDurationMin, r[i].priority) == patch
  {
    if list == [] then []
    else [if list[0].id == id then Apply(list[0], patch, now) else list[0]]
         + Patched(list[1..], id, patch, now)
  }

  /** Updating an id no service carries changes nothing. */
  lemma PatchedAbsent(list: seq<Service>, id: string, patch: ServiceDraft, now: string)
    requires forall i :: 0 <= i < |list| ==> list[i].id != id
    ensures Patched(list, id, patch, now) == list
  {
  }

  /** Applying the same update twice is applying it once. */
  lemma {:induction false} PatchedIdempotent(list: seq<Service>, id: string, patch: ServiceDraft, now: string)
    ensures Patched(Patched(list, id, patch, now), id, patch, now) == Patched(list, id, patch, now)
  {
    if list != [] {
      PatchedIdempotent(list[1..], id, patch, now);
      assert Patched(list, id, patch, now)[1..] == Patched(list[1..], id, patch, now);
    }
  }

  /** `list.filter(s => s.id !== id)`. */
  function WithoutService(list: seq<Service>, id: string): (r: seq<Service>)
    ensures forall i :: 0 <= i < |r| ==> r[i].id != id && r[i] in list
    ensures forall i :: 0 <= i < |list| && list[i].id != id ==> list[i] in r
  {
    Lists.Keep(list, (s: Service) => s.id != id)
  }

  /** Deleting twice is deleting once. */
  lemma DeleteIdempotent(list: seq<Service>, id: string)
    ensures WithoutService(WithoutService(list, id), id) == WithoutService(list, id)
  {
    Lists.KeepIdempotent(list, (s: Service) => s.id != id);
  }

  /** Deletion keeps the order of the services that remain. */
  lemma DeleteKeepsOrder(a: seq<Service>, b: seq<Service>, id: string)
    ensures WithoutService(a + b, id) == WithoutService(a, id) + WithoutService(b, id)
  {
    Lists.KeepAppend(a, b, (s: Service) => s.id != id);
  }

  /** Deleting an id after updating it is the same as deleting it: an update
      touches no service but the ones with that id. */
  lemma {:induction false} DeleteAfterUpdate(list: seq<Service>, id: string, patch: ServiceDraft, now: string)
    ensures WithoutService(Patched(list, id, patch, now), id) == WithoutService(list, id)
  {
    if list != [] {
      var p := Patched(list, id, patch, now);
      assert p == [p[0]] + Patched(list[1..], id, patch, now);
      assert list == [list[0]] + list[1..];
      DeleteKeepsOrder([p[0]], Patched(list[1..], id, patch, now), id);
      DeleteKeepsOrder([list[0]], list[1..], id);
      DeleteAfterUpdate(list[1..], id, patch, now);
    }
  }

  class ServicesStore {
    var services: seq<Service>

    /** The two services the store starts with, stamped `now`. */
    constructor (now: string)
      ensures services == [
        Service("SVC-001", "Transcript Request",
                "Official/unofficial transcript processing and delivery options.", 10, Medium, now),
        Service("SVC-002", "Enrollment Verification",
                "Verify enrollment status for third-party requests and documentation.", 8, Low, now)]
    {
      services := [
        Service("SVC-001", "Transcript Request",
                "Official/unofficial transcript processing and delivery options.", 10, Medium, now),
        Service("SVC-002", "Enrollment Verification",
                "Verify enrollment status for third-party requests and documentation.", 8, Low, now)];
    }

    /** `n` is the random number behind the new id; nothing prevents it
        from repeating an existing id. */
    method Create(input: ServiceDraft, n: int, now: string)
      requires 1000 <= n <= 9999
      modifies this
      ensures services == [NewService(input, n, now)] + old(services)
      ensures |services| == |old(services)| + 1 && services[1..] == old(services)
    {
      var svc := NewService(input, n, now);
      services := [svc] + services;
    }

    method Update(id: string, patch: ServiceDraft, now: string)
      modifies this
      ensures services == Patched(old(services), id, patch, now)
    {
      services := Patched(services, id, patch, now);
    }

    method Delete(id: string)
      modifies this
      ensures services == WithoutService(old(services), id)
    {
      services := WithoutService(services, id);
    }
  }
}
