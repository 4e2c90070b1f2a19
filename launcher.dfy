/**
 * The pod manager of the A100 launcher: its fixed pod configuration, the
 * provisioning payload, the two readiness loops and the SSH client configuration
 * it appends to. Replies of the remote API arrive as inputs, one per call;
 * `sys.exit(1)` is a failure or timeout outcome.
 */
module Launcher {
  import opened Wrappers
  import opened PyJson
  import opened Graphql
  import opened Readiness

  /** The default `max_attempts` of `wait_for_pod_running`. */
  const DefaultBootAttempts: int := 60

  /** The fixed `max_attempts` of `get_ssh_details`. */
  const SshMaxAttempts: nat := 40

  // ---------------------------------------------------------------------------
  // Text builders

  /** The key shown while creating the pod: at most 50 characters, then "...". */
  function KeyPreview(key: string): (p: string)
    ensures |key| <= 50 ==> p == key
    ensures |key| > 50 ==> |p| == 53 && p[..50] == key[..50] && p[50..] == "..."
  {
    if |key| > 50 then key[..50] + "..." else key
  }

  const AliasPrefix: string := "runpod-"

  /** Reads the pod id back out of an alias; the inverse of `Alias`. */
  function PodIdOfAlias(alias: string): Option<string> {
    if |alias| >= |AliasPrefix| && alias[..|AliasPrefix|] == AliasPrefix
    then Some(alias[|AliasPrefix|..]) else None
  }

  /** The SSH host alias `runpod-<pod_id>`: it names exactly that pod. */
  function Alias(podId: string): (alias: string)
    ensures PodIdOfAlias(alias) == Some(podId)
  {
    assert (AliasPrefix + podId)[..|AliasPrefix|] == AliasPrefix;
    AliasPrefix + podId
  }

  /** Every alias `PodIdOfAlias` accepts is the alias of the pod id it yields. */
  lemma AliasOfPodId(alias: string)
    requires PodIdOfAlias(alias).Some?
    ensures Alias(PodIdOfAlias(alias).value) == alias
  {
    assert alias == alias[..|AliasPrefix|] + alias[|AliasPrefix|..];
  }

  predicate NoNewline(s: string) {
    forall i :: 0 <= i < |s| ==> s[i] != '\n'
  }

  lemma NoNewlineAppend(a: string, b: string)
    requires NoNewline(a) && NoNewline(b)
    ensures NoNewline(a + b)
  {
  }

  /** The lines of a text joined by newlines. */
  function JoinLines(lines: seq<string>): string
    requires |lines| > 0
  {
    if |lines| == 1 then lines[0] else lines[0] + "\n" + JoinLines(lines[1..])
  }

  /** Python `s.split("\n")`. */
  function SplitLines(s: string): (lines: seq<string>)
    ensures |lines| > 0
  {
    if |s| == 0 then [""]
    else if s[0] == '\n' then [""] + SplitLines(s[1..])
    else var rest := SplitLines(s[1..]); [[s[0]] + rest[0]] + rest[1..]
  }

  lemma {:induction false} SplitSingleLine(line: string)
    requires NoNewline(line)
    ensures SplitLines(line) == [line]
  {
    if |line| > 0 {
      SplitSingleLine(line[1..]);
      assert [line[0]] + line[1..] == line;
    }
  }

  lemma {:induction false} SplitAfterLine(line: string, rest: string)
    requires NoNewline(line)
    ensures SplitLines(line + "\n" + rest) == [line] + SplitLines(rest)
  {
    var s := line + "\n" + rest;
    if |line| == 0 {
      assert s[0] == '\n' && s[1..] == rest;
    } else {
      assert s[0] == line[0] && s[1..] == line[1..] + "\n" + rest;
      SplitAfterLine(line[1..], rest);
      assert [line[0]] + line[1..] == line;
    }
  }

  /** Splitting joined lines gives the lines back, provided none contains a newline. */
  lemma {:induction false} SplitJoinLines(lines: seq<string>)
    requires |lines| > 0
    requires forall i :: 0 <= i < |lines| ==> NoNewline(lines[i])
    ensures SplitLines(JoinLines(lines)) == lines
  {
    if |lines| == 1 {
      SplitSingleLine(lines[0]);
    } else {
      SplitAfterLine(lines[0], JoinLines(lines[1..]));
      SplitJoinLines(lines[1..]);
    }
  }

  /** The lines of the entry appended to the SSH client configuration. */
  function ConfigBlockLines(podName: string, alias: string, host: string, port: string, keyPath: string): seq<string> {
    [ "",
      "# RunPod Pod: " + podName,
      "Host " + alias,
      "    HostName " + host,
      "    Port " + port,
      "    User root",
      "    IdentityFile " + keyPath,
      "    StrictHostKeyChecking no",
      "" ]
  }

  /** The entry text: it starts and ends with a newline. */
  function ConfigBlock(podName: string, alias: string, host: string, port: string, keyPath: string): string {
    JoinLines(ConfigBlockLines(podName, alias, host, port, keyPath))
  }

  /** The fixed texts of the entry are single-line. */
  lemma ConfigBlockTextsSingle()
    ensures NoNewline("# RunPod Pod: ") && NoNewline("Host ") && NoNewline("    HostName ")
    ensures NoNewline("    Port ") && NoNewline("    IdentityFile ")
    ensures NoNewline("    User root") && NoNewline("    StrictHostKeyChecking no")
  {
  }

  /** No line of the entry contains a newline, provided no value does. */
  lemma ConfigBlockLinesSingle(podName: string, alias: string, host: string, port: string, keyPath: string)
    requires NoNewline(podName) && NoNewline(alias) && NoNewline(host) && NoNewline(port) && NoNewline(keyPath)
    ensures var lines := ConfigBlockLines(podName, alias, host, port, keyPath);
            forall i :: 0 <= i < |lines| ==> NoNewline(lines[i])
  {
    ConfigBlockTextsSingle();
    NoNewlineAppend("# RunPod Pod: ", podName);
    NoNewlineAppend("Host ", alias);
    NoNewlineAppend("    HostName ", host);
    NoNewlineAppend("    Port ", port);
    NoNewlineAppend("    IdentityFile ", keyPath);
  }

  /**
   * When no value contains a newline, the entry reads back, line by line, as a
   * `Host <alias>` section whose `HostName` and `Port` are the given host and port.
   */
  lemma ConfigBlockReadsBack(podName: string, alias: string, host: string, port: string, keyPath: string)
    requires NoNewline(podName) && NoNewline(alias) && NoNewline(host) && NoNewline(port) && NoNewline(keyPath)
    ensures SplitLines(ConfigBlock(podName, alias, host, port, keyPath)) == ConfigBlockLines(podName, alias, host, port, keyPath)
  {
    ConfigBlockLinesSingle(podName, alias, host, port, keyPath);
    SplitJoinLines(ConfigBlockLines(podName, alias, host, port, keyPath));
  }

  /** One `{"key": ..., "value": ...}` entry of the pod's environment. */
  datatype EnvVar = EnvVar(key: string, value: string)

  /** `variables["input"]` of the deployment mutation, one field per key. */
  datatype DeployInput = DeployInput(
    cloudType: string,
    gpuCount: int,
    volumeInGb: int,
    containerDiskInGb: int,
    minVcpuCount: int,
    minMemoryInGb: int,
    gpuTypeId: string,
    name: string,
    dataCenterId: string,
    templateId: string,
    ports: string,
    volumeMountPath: string,
    networkVolumeId: string,
    supportPublicIp: bool,
    env: seq<EnvVar>)

  /** The port search of `get_ssh_details`: the first entry with `privatePort == 22`. */
  method FindSshPort(ports: seq<Json>) returns (r: Search)
    ensures r == SearchFrom(ports, 0)
    ensures r.Found? ==> r.index < |ports| && IsSshEntry(ports[r.index]) && PassedOver(ports, 0, r.index)
    ensures r.Absent? <==> PassedOver(ports, 0, |ports|)
  {
    SearchFromMeaning(ports, 0);
    r := Absent;
    for i := 0 to |ports|
      invariant SearchFrom(ports, i) == SearchFrom(ports, 0)
    {
      var privatePort := GetOr(ports[i], "privatePort", Null);
      if privatePort.Err? {
        return Broke(privatePort.error);
      }
      if EqualsInt(privatePort.value, 22) {
        r := Found(i);
        break;
      }
    }
  }

  /** What `Poll` over the boot steps of the first `n` replies says about those replies. */
  lemma BootPollMeaning(replies: seq<Reply>, n: nat)
    requires n <= |replies|
    ensures var p := Poll(BootSteps(replies[..n]));
            && p.attempts <= n
            && (p.TimedOut? ==> p.attempts == n && forall j :: 0 <= j < n ==> !BootStep(replies[j]).Ready?)
            && (p.Succeeded? ==>
                  1 <= p.attempts && BootStep(replies[p.attempts - 1]).Ready?
                  && forall j :: 0 <= j < p.attempts - 1 ==> !BootStep(replies[j]).Ready?)
  {
    var steps := BootSteps(replies[..n]);
    PollFirstReadyWins(steps);
    assert forall j :: 0 <= j < n ==> steps[j] == BootStep(replies[j]);
  }

  /** What `Poll` over the SSH steps of the first `n` replies says about those replies. */
  lemma SshPollMeaning(replies: seq<Reply>, n: nat)
    requires n <= |replies|
    ensures var p := Poll(SshSteps(replies[..n]));
            && p.attempts <= n
            && (p.TimedOut? ==> p.attempts == n && forall j :: 0 <= j < n ==> !SshStep(replies[j]).Ready?)
            && (p.Succeeded? ==>
                  1 <= p.attempts && SshStep(replies[p.attempts - 1]) == Ready(p.value)
                  && forall j :: 0 <= j < p.attempts - 1 ==> !SshStep(replies[j]).Ready?)
  {
    var steps := SshSteps(replies[..n]);
    PollFirstReadyWins(steps);
    assert forall j :: 0 <= j < n ==> steps[j] == SshStep(replies[j]);
  }

  /** The fixed part of the pod name; the start-up time follows it. */
  const PodNamePrefix: string := "a100-pcie-pod-"

  class PodManager {
    /** The public key read at start-up; empty when the key file is missing. */
    const sshPublicKey: string
    /** `a100-pcie-pod-<timestamp>`. */
    const podName: string
    /** The private key named in the SSH configuration entry. */
    const sshKeyPath: string

    const gpuTypeId: string := "NVIDIA A100 80GB PCIe"
    const gpuCount: int := 1
    const containerDiskGb: int := 20
    const volumeGb: int := 0
    const networkVolumeId: string := "v8du7ep4yk"
    const datacenterId: string := "CA-MTL-3"
    const templateId: string := "runpod-torch-v240"
    const minVcpu: int := 8
    const minMemoryGb: int := 100
    const ports: string := "22/tcp,8888/http"
    const volumeMountPath: string := "/workspace"

    /** The contents of the SSH client configuration file. */
    var sshConfig: string

    /**
     * `timestamp` is the `%Y%m%d-%H%M%S` rendering of the start-up time, `home`
     * the user's home directory and `sshConfig` what the configuration file holds.
     */
    constructor (sshPublicKey: string, timestamp: string, home: string, sshConfig: string)
      ensures this.sshPublicKey == sshPublicKey && this.podName == PodNamePrefix + timestamp
      ensures this.sshKeyPath == home + "/.ssh/id_rsa"
      ensures this.sshConfig == sshConfig
    {
      this.sshPublicKey := sshPublicKey;
      this.podName := PodNamePrefix + timestamp;
      this.sshKeyPath := home + "/.ssh/id_rsa";
      this.sshConfig := sshConfig;
    }

    /** The `env` list: one `PUBLIC_KEY` entry when there is a key, none otherwise. */
    method BuildEnvVars() returns (env: seq<EnvVar>)
      ensures sshPublicKey != "" ==> env == [EnvVar("PUBLIC_KEY", sshPublicKey)]
      ensures sshPublicKey == "" ==> env == []
    {
      env := [];
      if sshPublicKey != "" {
        env := env + [EnvVar("PUBLIC_KEY", sshPublicKey)];
      }
    }

    /** The fixed fields of the payload are the manager's configuration, unchanged. */
    predicate CarriesConfiguration(input: DeployInput) {
      && input.cloudType == "SECURE"
      && input.gpuCount == gpuCount
      && input.volumeInGb == volumeGb
      && input.containerDiskInGb == containerDiskGb
      && input.minVcpuCount == minVcpu
      && input.minMemoryInGb == minMemoryGb
      && input.gpuTypeId == gpuTypeId
      && input.name == podName
      && input.dataCenterId == datacenterId
      && input.templateId == templateId
      && input.ports == ports
      && input.volumeMountPath == volumeMountPath
      && input.networkVolumeId == networkVolumeId
      && input.supportPublicIp
    }

    /** `variables["input"]` of the deployment mutation. */
    function DeployVariables(env: seq<EnvVar>): (input: DeployInput)
      ensures CarriesConfiguration(input) && input.env == env
    {
      DeployInput(
        cloudType := "SECURE",
        gpuCount := gpuCount,
        volumeInGb := volumeGb,
        containerDiskInGb := containerDiskGb,
        minVcpuCount := minVcpu,
        minMemoryInGb := minMemoryGb,
        gpuTypeId := gpuTypeId,
        name := podName,
        dataCenterId := datacenterId,
        templateId := templateId,
        ports := ports,
        volumeMountPath := volumeMountPath,
        networkVolumeId := networkVolumeId,
        supportPublicIp := true,
        env := env)
    }

    /**
     * `create_pod`: sends the deployment variables and answers the new pod's id,
     * or the failure that makes the script exit.
     */
    method CreatePod(reply: Reply) returns (sent: DeployInput, outcome: Result<Json, Failure>)
      ensures CarriesConfiguration(sent)
      ensures sent.env == if sshPublicKey != "" then [EnvVar("PUBLIC_KEY", sshPublicKey)] else []
      ensures outcome == DeployResult(reply)
    {
      var env := BuildEnvVars();
      sent := DeployVariables(env);
      outcome := DeployResult(reply);
    }

    /**
     * The `try` block of one boot attempt: `get_pod_info`, then the runtime test.
     * An exception and a snapshot without runtime both answer false. This is the
     * imperative form of `Readiness.BootStep`, proved equal to it.
     */
    method PodIsRunning(reply: Reply) returns (running: bool)
      ensures running == BootStep(reply).Ready?
    {
      var podInfo := GetPodInfo(reply);
      if podInfo.Err? {
        return false;
      }
      var runtime := GetOr(podInfo.value, "runtime", Null);
      if runtime.Err? {
        return false;
      }
      running := Truthy(runtime.value);
    }

    /**
     * The `try` block of one SSH attempt: `get_pod_info`, the runtime and ports
     * tests, the port search and the host/port test. An exception and every
     * not-ready branch answer None. This is the imperative form of
     * `Readiness.SshStep` (and `SshStepOf` behind it), proved equal to it.
     */
    method SshEndpointOf(reply: Reply) returns (endpoint: Option<Endpoint>)
      ensures endpoint.Some? <==> SshStep(reply).Ready?
      ensures endpoint.Some? ==> SshStep(reply) == Ready(endpoint.value)
    {
      var podInfo := GetPodInfo(reply);
      if podInfo.Err? {
        return None;
      }
      var runtime := GetOr(podInfo.value, "runtime", Null);
      if runtime.Err? || !Truthy(runtime.value) {
        return None;  // waiting for the SSH port to be exposed
      }
      var portList := GetOr(runtime.value, "ports", Null);
      if portList.Err? || !Truthy(portList.value) {
        return None;
      }
      var entries := PortEntries(portList.value);
      if entries.Err? {
        return None;
      }
      var found := FindSshPort(entries.value);
      if !found.Found? {
        return None;  // SSH port not found yet, or an entry raised
      }
      var entry := entries.value[found.index];
      var sshHost := HostOf(entry.fields);
      var sshPort := PortText(entry.fields);
      if Truthy(sshHost) && |sshPort| > 0 {
        return Some(Endpoint(sshHost, sshPort));
      }
      return None;  // SSH details incomplete
    }

    /**
     * `wait_for_pod_running`: one reply per attempt, at most `maxAttempts` of them;
     * the first snapshot with a truthy `runtime` ends the loop.
     */
    method WaitForPodRunning(replies: seq<Reply>, maxAttempts: int) returns (outcome: Polled<()>)
      requires Budget(maxAttempts) <= |replies|
      ensures outcome == Poll(BootSteps(replies[..Budget(maxAttempts)]))
      ensures outcome.attempts <= Budget(maxAttempts)
      ensures outcome.TimedOut? ==> outcome.attempts == Budget(maxAttempts)
      ensures outcome.TimedOut? ==> forall j :: 0 <= j < Budget(maxAttempts) ==> !BootStep(replies[j]).Ready?
      ensures outcome.Succeeded? ==>
                1 <= outcome.attempts && BootStep(replies[outcome.attempts - 1]).Ready?
                && forall j :: 0 <= j < outcome.attempts - 1 ==> !BootStep(replies[j]).Ready?
    {
      var budget := Budget(maxAttempts);
      ghost var steps := BootSteps(replies[..budget]);
      for attempt := 1 to budget + 1
        invariant forall j :: 0 <= j < attempt - 1 ==> !steps[j].Ready?
      {
        var running := PodIsRunning(replies[attempt - 1]);
        assert steps[attempt - 1] == BootStep(replies[attempt - 1]);
        if running {
          outcome := Succeeded((), attempt);
          PollFindsFirstReady(steps, attempt - 1);
          BootPollMeaning(replies, budget);
          return;
        }
      }
      outcome := TimedOut(budget);
      PollTimesOut(steps);
      BootPollMeaning(replies, budget);
    }

    /** `wait_for_pod_running(pod_id)` with the default of 60 attempts, as `run` calls it. */
    method WaitForPodRunningByDefault(replies: seq<Reply>) returns (outcome: Polled<()>)
      requires DefaultBootAttempts <= |replies|
      ensures outcome == Poll(BootSteps(replies[..DefaultBootAttempts]))
      ensures outcome.attempts <= DefaultBootAttempts
      ensures outcome.TimedOut? ==> outcome.attempts == DefaultBootAttempts
    {
      outcome := WaitForPodRunning(replies, DefaultBootAttempts);
    }

    /**
     * `get_ssh_details`: at most 40 attempts; the first snapshot whose first
     * `privatePort == 22` entry has a truthy host and a non-empty port text ends
     * the loop with that host and port.
     */
    method GetSshDetails(replies: seq<Reply>) returns (outcome: Polled<Endpoint>)
      requires SshMaxAttempts <= |replies|
      ensures outcome == Poll(SshSteps(replies[..SshMaxAttempts]))
      ensures outcome.attempts <= SshMaxAttempts
      ensures outcome.TimedOut? ==> outcome.attempts == SshMaxAttempts
      ensures outcome.TimedOut? ==> forall j :: 0 <= j < SshMaxAttempts ==> !SshStep(replies[j]).Ready?
      ensures outcome.Succeeded? ==>
                1 <= outcome.attempts && SshStep(replies[outcome.attempts - 1]) == Ready(outcome.value)
                && forall j :: 0 <= j < outcome.attempts - 1 ==> !SshStep(replies[j]).Ready?
    {
      ghost var steps := SshSteps(replies[..SshMaxAttempts]);
      for attempt := 1 to SshMaxAttempts + 1
        invariant forall j :: 0 <= j < attempt - 1 ==> !steps[j].Ready?
      {
        var endpoint := SshEndpointOf(replies[attempt - 1]);
        assert steps[attempt - 1] == SshStep(replies[attempt - 1]);
        if endpoint.Some? {
          outcome := Succeeded(endpoint.value, attempt);
          PollFindsFirstReady(steps, attempt - 1);
          SshPollMeaning(replies, SshMaxAttempts);
          return;
        }
      }
      outcome := TimedOut(SshMaxAttempts);
      PollTimesOut(steps);
      SshPollMeaning(replies, SshMaxAttempts);
    }

    /**
     * `update_ssh_config`: appends one `Host runpod-<pod_id>` entry to the SSH
     * configuration, leaves what was there untouched, and answers the alias.
     */
    method UpdateSshConfig(podId: string, sshHost: string, sshPort: string) returns (alias: string)
      modifies this
      ensures alias == Alias(podId)
      ensures sshConfig == old(sshConfig) + ConfigBlock(podName, alias, sshHost, sshPort, sshKeyPath)
    {
      alias := Alias(podId);
      var entry := ConfigBlock(podName, alias, sshHost, sshPort, sshKeyPath);
      sshConfig := sshConfig + entry;
    }
  }

  /** Registering two pods one after the other keeps the first entry in place. */
  method RegisterTwoPods(m: PodManager, first: string, second: string, host: string, port: string)
    modifies m
    ensures m.sshConfig ==
              old(m.sshConfig)
              + ConfigBlock(m.podName, Alias(first), host, port, m.sshKeyPath)
              + ConfigBlock(m.podName, Alias(second), host, port, m.sshKeyPath)
  {
    var a := m.UpdateSshConfig(first, host, port);
    var b := m.UpdateSshConfig(second, host, port);
  }
}
