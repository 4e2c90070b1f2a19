/**
 * The decision rules of the two readiness loops. One attempt turns one reply into
 * a `Step`: the predicate held (with what it found), it did not, or an exception
 * was raised inside the `try`. `Poll` is the reference meaning of a bounded loop
 * over such steps: the first `Ready` step wins, every other step consumes an
 * attempt, and running out of steps is a timeout.
 */
module Readiness {
  import opened Wrappers
  import opened PyJson
  import opened Graphql

  datatype Step<+T> = Ready(value: T) | NotReady | Raised(failure: Failure)

  /** How a polling loop ended and how many `get_pod_info` calls it made. */
  datatype Polled<+T> = Succeeded(value: T, attempts: nat) | TimedOut(attempts: nat)

  /** The number of attempts `range(1, maxAttempts + 1)` runs through. */
  function Budget(maxAttempts: int): nat {
    if maxAttempts < 0 then 0 else maxAttempts
  }

  // ---------------------------------------------------------------------------
  // The bounded loop, as a reference definition

  function Poll<T>(steps: seq<Step<T>>): (p: Polled<T>)
    ensures p.attempts <= |steps|
    ensures p.TimedOut? ==> p.attempts == |steps|
    ensures p.Succeeded? ==> 1 <= p.attempts && steps[p.attempts - 1] == Ready(p.value)
    decreases |steps|
  {
    if steps == [] then TimedOut(0)
    else if steps[0].Ready? then Succeeded(steps[0].value, 1)
    else
      match Poll(steps[1..])
      case Succeeded(v, k) => Succeeded(v, k + 1)
      case TimedOut(k) => TimedOut(k + 1)
  }

  /** Success is the FIRST ready step; a timeout means no step was ready. */
  lemma {:induction false} PollFirstReadyWins<T>(steps: seq<Step<T>>)
    ensures Poll(steps).Succeeded? ==> forall j :: 0 <= j < Poll(steps).attempts - 1 ==> !steps[j].Ready?
    ensures Poll(steps).TimedOut? <==> forall j :: 0 <= j < |steps| ==> !steps[j].Ready?
    decreases |steps|
  {
    if steps != [] && !steps[0].Ready? {
      PollFirstReadyWins(steps[1..]);
      assert forall j :: 1 <= j < |steps| ==> steps[j] == steps[1..][j - 1];
    }
  }

  /** The step at `k` is the first ready one: the loop returns its value after `k + 1` attempts. */
  lemma PollFindsFirstReady<T>(steps: seq<Step<T>>, k: nat)
    requires k < |steps| && steps[k].Ready?
    requires forall j :: 0 <= j < k ==> !steps[j].Ready?
    ensures Poll(steps) == Succeeded(steps[k].value, k + 1)
  {
    PollFirstReadyWins(steps);
  }

  /** No step is ready: the loop times out after using every attempt. */
  lemma PollTimesOut<T>(steps: seq<Step<T>>)
    requires forall j :: 0 <= j < |steps| ==> !steps[j].Ready?
    ensures Poll(steps) == TimedOut(|steps|)
  {
    PollFirstReadyWins(steps);
  }

  /** Steps after the successful one are never looked at. */
  lemma {:induction false} PollIgnoresLaterSteps<T>(steps: seq<Step<T>>, later: seq<Step<T>>)
    requires Poll(steps).Succeeded?
    ensures Poll(steps + later) == Poll(steps)
    decreases |steps|
  {
    assert (steps + later)[0] == steps[0];
    if !steps[0].Ready? {
      assert (steps + later)[1..] == steps[1..] + later;
      PollIgnoresLaterSteps(steps[1..], later);
    }
  }

  /** The outcome is decided by the first `attempts` steps alone. */
  lemma PollSeesOnlyItsAttempts<T>(steps: seq<Step<T>>)
    ensures Poll(steps[..Poll(steps).attempts]) == Poll(steps)
  {
    var k := Poll(steps).attempts;
    if Poll(steps).Succeeded? {
      PollFirstReadyWins(steps);
      PollFindsFirstReady(steps[..k], k - 1);
    } else {
      assert steps[..k] == steps;
    }
  }

  /** A raised exception costs an attempt exactly as a not-ready answer does. */
  lemma {:induction false} PollRaisedCountsAsNotReady<T>(steps: seq<Step<T>>, i: nat)
    requires i < |steps| && steps[i].Raised?
    ensures Poll(steps[i := NotReady]) == Poll(steps)
    decreases |steps|
  {
    if i > 0 {
      assert steps[i := NotReady][1..] == steps[1..][i - 1 := NotReady];
      PollRaisedCountsAsNotReady(steps[1..], i - 1);
    }
  }

  // ---------------------------------------------------------------------------
  // wait_for_pod_running: one attempt

  /** The pod snapshot has a truthy `runtime` entry. */
  predicate HasRuntime(podInfo: Json) {
    podInfo.Obj? && "runtime" in podInfo.fields && Truthy(podInfo.fields["runtime"])
  }

  /** One attempt of the boot loop: `pod_info.get("runtime")` is truthy. */
  function BootStep(reply: Reply): (s: Step<()>)
    ensures s.Ready? <==> GetPodInfo(reply).Ok? && HasRuntime(GetPodInfo(reply).value)
    ensures s.Raised? <==> GetPodInfo(reply).Err? || !GetPodInfo(reply).value.Obj?
  {
    match GetPodInfo(reply)
    case Err(f) => Raised(f)
    case Ok(podInfo) =>
      match GetOr(podInfo, "runtime", Null)
      case Err(e) => Raised(Python(e))
      case Ok(runtime) => if Truthy(runtime) then Ready(()) else NotReady
  }

  function BootSteps(replies: seq<Reply>): (steps: seq<Step<()>>)
    ensures |steps| == |replies|
    ensures forall j :: 0 <= j < |replies| ==> steps[j] == BootStep(replies[j])
  {
    seq(|replies|, j requires 0 <= j < |replies| => BootStep(replies[j]))
  }

  // ---------------------------------------------------------------------------
  // get_ssh_details: the port search and one attempt

  /** The SSH endpoint one attempt found: the entry's `ip` value and the port text. */
  datatype Endpoint = Endpoint(host: Json, port: string)

  /** How the search for the SSH port entry ended. */
  datatype Search = Found(index: nat) | Absent | Broke(error: PyError)

  /** `port.get("privatePort") == 22` holds of this entry. */
  predicate IsSshEntry(entry: Json) {
    entry.Obj? && "privatePort" in entry.fields && EqualsInt(entry.fields["privatePort"], 22)
  }

  /** Every entry from `i` up to (not including) `k` was inspected and passed over. */
  predicate PassedOver(ports: seq<Json>, i: nat, k: nat)
    requires i <= k <= |ports|
  {
    forall j :: i <= j < k ==> ports[j].Obj? && !IsSshEntry(ports[j])
  }

  /**
   * The `for port in ports` loop from position `i`: the first entry with
   * `privatePort == 22`, or none, or an entry without a `get` method on the way.
   */
  function SearchFrom(ports: seq<Json>, i: nat): (r: Search)
    requires i <= |ports|
    ensures r.Found? ==> i <= r.index < |ports| && ports[r.index].Obj?
    decreases |ports| - i
  {
    if i == |ports| then Absent
    else
      match GetOr(ports[i], "privatePort", Null)
      case Err(e) => Broke(e)
      case Ok(privatePort) =>
        if EqualsInt(privatePort, 22) then Found(i) else SearchFrom(ports, i + 1)
  }

  /**
   * The search stops at the first entry with `privatePort == 22`; it finds none
   * exactly when every entry is a record without it; it breaks only on an entry
   * that is not a record.
   */
  lemma {:induction false} SearchFromMeaning(ports: seq<Json>, i: nat)
    requires i <= |ports|
    ensures var r := SearchFrom(ports, i);
            (r.Found? ==> IsSshEntry(ports[r.index]) && PassedOver(ports, i, r.index))
            && (r.Absent? <==> PassedOver(ports, i, |ports|))
            && (r.Broke? ==> r.error == AttributeError && !(forall j :: i <= j < |ports| ==> ports[j].Obj?))
    decreases |ports| - i
  {
    if i < |ports| && ports[i].Obj? && !IsSshEntry(ports[i]) {
      SearchFromMeaning(ports, i + 1);
    }
  }

  /** The entry at `k` is the first SSH entry: the search stops there. */
  lemma {:induction false} SearchFindsFirst(ports: seq<Json>, i: nat, k: nat)
    requires i <= k < |ports| && IsSshEntry(ports[k]) && PassedOver(ports, i, k)
    ensures SearchFrom(ports, i) == Found(k)
    decreases k - i
  {
    if i < k {
      SearchFindsFirst(ports, i + 1, k);
    }
  }

  /** Python iteration over the truthy `ports` value. */
  function PortEntries(ports: Json): (r: Result<seq<Json>, PyError>)
    ensures ports.Arr? ==> r == Ok(ports.items)
    ensures r.Ok? && Truthy(ports) && |r.value| > 0 ==> ports.Arr? || ports.Str?
  {
    match ports
    case Arr(items) => Ok(items)
    case Str(s) => Ok(seq(|s|, k requires 0 <= k < |s| => Str([s[k]])))
    // iterating a dict yields its keys, strings, and the first one has no `get`
    case Obj(fields) => if |fields| == 0 then Ok([]) else Err(AttributeError)
    case _ => Err(TypeError)
  }

  /** `str(port.get("publicPort", 22))`. */
  function PortText(entry: map<string, Json>): string {
    PyStr(DictGet(entry, "publicPort", Num(22)))
  }

  /**
   * The port text is "22" without a `publicPort`, the canonical numeral of an
   * integer one, "None" for a null one, and empty only for an empty-string one.
   */
  lemma PortTextMeaning(entry: map<string, Json>)
    ensures "publicPort" !in entry ==> PortText(entry) == "22"
    ensures "publicPort" in entry && entry["publicPort"].Num? ==>
              Canonical(PortText(entry)) && DecimalValue(PortText(entry)) == entry["publicPort"].n
    ensures "publicPort" in entry && entry["publicPort"] == Null ==> PortText(entry) == "None"
    ensures |PortText(entry)| == 0 <==> "publicPort" in entry && entry["publicPort"] == Str("")
  {
    if "publicPort" in entry {
      PyStrMeaning(entry["publicPort"]);
    } else {
      assert Digits(22) == Digits(2) + [DigitChar(2)];
    }
  }

  /** `port.get("ip")`. */
  function HostOf(entry: map<string, Json>): Json {
    DictGet(entry, "ip", Null)
  }

  /** The tail of one attempt, once the SSH entry is found: `if ssh_host and ssh_port`. */
  function EndpointStep(entry: map<string, Json>): Step<Endpoint> {
    var host := HostOf(entry);
    var port := PortText(entry);
    if Truthy(host) && |port| > 0 then Ready(Endpoint(host, port)) else NotReady
  }

  /**
   * One attempt of the SSH loop on a pod snapshot. A missing or empty `runtime`,
   * or a runtime whose `ports` is missing, null or empty, is not ready.
   */
  function SshStepOf(podInfo: Json): (s: Step<Endpoint>)
    ensures podInfo.Obj? && !HasRuntime(podInfo) ==> s == NotReady
    ensures HasRuntime(podInfo) && podInfo.fields["runtime"].Obj? ==>
              var runtime := podInfo.fields["runtime"].fields;
              ("ports" !in runtime || !Truthy(runtime["ports"])) ==> s == NotReady
    ensures !podInfo.Obj? ==> s == Raised(Python(AttributeError))
  {
    match GetOr(podInfo, "runtime", Null)
    case Err(e) => Raised(Python(e))
    case Ok(runtime) =>
      if !Truthy(runtime) then NotReady
      else
        match GetOr(runtime, "ports", Null)
        case Err(e) => Raised(Python(e))
        case Ok(ports) =>
          if !Truthy(ports) then NotReady
          else
            match PortEntries(ports)
            case Err(e) => Raised(Python(e))
            case Ok(entries) =>
              match SearchFrom(entries, 0)
              case Broke(e) => Raised(Python(e))
              case Absent => NotReady
              case Found(k) => EndpointStep(entries[k].fields)
  }

  /**
   * Once the SSH entry is found, the attempt succeeds exactly when the host is
   * truthy and `publicPort` is not the empty string, the only value whose text
   * is empty.
   */
  lemma EndpointStepMeaning(entry: map<string, Json>)
    ensures EndpointStep(entry).Ready? ==>
              EndpointStep(entry).value == Endpoint(HostOf(entry), PortText(entry))
    ensures !EndpointStep(entry).Raised?
    ensures EndpointStep(entry).Ready? <==>
              Truthy(HostOf(entry)) && !("publicPort" in entry && entry["publicPort"] == Str(""))
    ensures "publicPort" in entry && entry["publicPort"] == Str("") ==> EndpointStep(entry) == NotReady
  {
    PortTextMeaning(entry);
    if "publicPort" in entry {
      PyStrMeaning(entry["publicPort"]);
    }
  }

  /** One attempt of the SSH loop on one reply. */
  function SshStep(reply: Reply): (s: Step<Endpoint>)
    ensures GetPodInfo(reply).Err? ==> s == Raised(GetPodInfo(reply).error)
    ensures s.Ready? ==> GetPodInfo(reply).Ok? && HasRuntime(GetPodInfo(reply).value)
  {
    match GetPodInfo(reply)
    case Err(f) => Raised(f)
    case Ok(podInfo) => SshStepOf(podInfo)
  }

  function SshSteps(replies: seq<Reply>): (steps: seq<Step<Endpoint>>)
    ensures |steps| == |replies|
    ensures forall j :: 0 <= j < |replies| ==> steps[j] == SshStep(replies[j])
  {
    seq(|replies|, j requires 0 <= j < |replies| => SshStep(replies[j]))
  }

  /** The snapshot's runtime is an object whose `ports` is the non-empty list `items`. */
  predicate RuntimePorts(podInfo: Json, items: seq<Json>) {
    HasRuntime(podInfo) && podInfo.fields["runtime"].Obj?
    && "ports" in podInfo.fields["runtime"].fields
    && podInfo.fields["runtime"].fields["ports"] == Arr(items) && |items| > 0
  }

  /** A port list whose entries are all records, none with `privatePort == 22`, is not ready. */
  lemma SshNotReadyWithoutPort22(podInfo: Json, items: seq<Json>)
    requires RuntimePorts(podInfo, items) && PassedOver(items, 0, |items|)
    ensures SshStepOf(podInfo) == NotReady
  {
    SearchFromMeaning(items, 0);
  }

  /** The endpoint comes from the FIRST entry with `privatePort == 22`, whatever follows it. */
  lemma SshUsesFirstSshEntry(podInfo: Json, items: seq<Json>, k: nat)
    requires RuntimePorts(podInfo, items)
    requires k < |items| && IsSshEntry(items[k]) && PassedOver(items, 0, k)
    ensures SshStepOf(podInfo) == EndpointStep(items[k].fields)
  {
    SearchFindsFirst(items, 0, k);
  }

  /**
   * A ready attempt had a runtime with a list of ports, found the first SSH entry
   * in it, and reports that entry's host and port text.
   */
  lemma SshReadyMeaning(podInfo: Json)
    requires SshStepOf(podInfo).Ready?
    ensures podInfo.Obj? && HasRuntime(podInfo)
    ensures var runtime := podInfo.fields["runtime"];
            runtime.Obj? && "ports" in runtime.fields && runtime.fields["ports"].Arr?
    ensures var items := podInfo.fields["runtime"].fields["ports"].items;
            RuntimePorts(podInfo, items)
            && var k := SearchFrom(items, 0).index;
            SearchFrom(items, 0).Found? && k < |items| && IsSshEntry(items[k]) && PassedOver(items, 0, k)
            && SshStepOf(podInfo).value == Endpoint(HostOf(items[k].fields), PortText(items[k].fields))
            && Truthy(HostOf(items[k].fields)) && |PortText(items[k].fields)| > 0
  {
    var entries := PortEntries(podInfo.fields["runtime"].fields["ports"]).value;
    SearchFromMeaning(entries, 0);
  }

  /** A snapshot the SSH loop accepts also satisfies the boot loop. */
  lemma SshReadyImpliesBooted(reply: Reply)
    requires SshStep(reply).Ready?
    ensures BootStep(reply).Ready?
  {
    SshReadyMeaning(GetPodInfo(reply).value);
  }
}
