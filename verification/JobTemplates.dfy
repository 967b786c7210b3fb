/** Building the Job of a request from the target Deployment (internal/controller/jobrequest_controller.go). */
module JobTemplates {
  import opened Wrappers
  import opened Resources

  /** The requested command and arguments in an otherwise unchanged container. */
  function WithCommand(c: Container, spec: RequestSpec): Container {
    c.(command := [spec.command], args := spec.args)
  }

  function TargetContainers(containers: seq<Container>, spec: RequestSpec): seq<Container> {
    if containers == [] then []
    else (if containers[0].name == spec.container then [WithCommand(containers[0], spec)] else [])
         + TargetContainers(containers[1..], spec)
  }

  function JobTemplate(deployment: Deployment, request: Key, spec: RequestSpec): Job {
    Job(TargetContainers(deployment.containers, spec), map[], map[], deployment.podRest, Never, 0, Some(request), [])
  }

  lemma {:induction false} TargetContainersAppend(a: seq<Container>, b: seq<Container>, spec: RequestSpec)
    ensures TargetContainers(a + b, spec) == TargetContainers(a, spec) + TargetContainers(b, spec)
  {
    if a == [] {
      assert a + b == b;
    } else {
      TargetContainersAppend(a[1..], b, spec);
      assert (a + b)[1..] == a[1..] + b;
    }
  }

  /** The loop over the containers of the Deployment.  It changes copies, never the Deployment itself. */
  method RetrieveContainersFromResource(containers: array<Container>, spec: RequestSpec) returns (target: seq<Container>)
    ensures target == TargetContainers(containers[..], spec)
    ensures containers[..] == old(containers[..])
  {
    target := [];
    for i := 0 to containers.Length
      invariant target == TargetContainers(containers[..i], spec)
    {
      var c := containers[i];
      assert containers[..i + 1] == containers[..i] + [c];
      TargetContainersAppend(containers[..i], [c], spec);
      if c.name == spec.container {
        c := c.(command := [spec.command]);
        c := c.(args := spec.args);
        target := target + [c];
      }
    }
    assert containers[..containers.Length] == containers[..];
  }

  /** The indices of the containers with the requested name, in order. */
  ghost predicate Selects(indices: seq<nat>, containers: seq<Container>, name: string) {
    && (forall i :: 0 <= i < |indices| ==> indices[i] < |containers| && containers[indices[i]].name == name)
    && (forall i, j :: 0 <= i < j < |indices| ==> indices[i] < indices[j])
    && (forall k :: 0 <= k < |containers| && containers[k].name == name ==> k in indices)
  }

  /** The result is the order-preserving filter by name, and only command and args are replaced. */
  lemma {:induction false} TargetContainersFilter(containers: seq<Container>, spec: RequestSpec) returns (indices: seq<nat>)
    ensures Selects(indices, containers, spec.container)
    ensures |TargetContainers(containers, spec)| == |indices|
    ensures forall i :: 0 <= i < |indices| ==>
              TargetContainers(containers, spec)[i]
              == containers[indices[i]].(command := [spec.command], args := spec.args)
  {
    if containers == [] {
      indices := [];
    } else {
      var n := |containers| - 1;
      var init, last := containers[..n], containers[n];
      indices := TargetContainersFilter(init, spec);
      assert containers == init + [last];
      TargetContainersAppend(init, [last], spec);
      assert TargetContainers([last], spec)
          == if last.name == spec.container then [WithCommand(last, spec)] else [] by {
        assert [last][1..] == [];
      }
      if last.name == spec.container {
        SelectsNext(indices, containers, spec.container);
        indices := indices + [n];
      }
    }
  }

  lemma SelectsNext(indices: seq<nat>, containers: seq<Container>, name: string)
    requires containers != [] && Selects(indices, containers[..|containers| - 1], name)
    requires containers[|containers| - 1].name == name
    ensures Selects(indices + [|containers| - 1], containers, name)
  {
    var n, more := |containers| - 1, indices + [|containers| - 1];
    assert more[|indices|] == n;
    forall k | 0 <= k < |containers| && containers[k].name == name
      ensures k in more
    {
      if k < n {
        assert containers[..n][k] == containers[k];
      }
    }
  }

  /** No container is left exactly when the Deployment has none of that name. */
  lemma {:induction false} NoTargetContainer(containers: seq<Container>, spec: RequestSpec)
    ensures TargetContainers(containers, spec) == [] <==> forall c :: c in containers ==> c.name != spec.container
  {
    if containers != [] {
      NoTargetContainer(containers[1..], spec);
      assert containers == [containers[0]] + containers[1..];
    }
  }
}
