/**
 * A worked run of the launcher against concrete replies: the service creates pod
 * "abc123" at 0.89 an hour, reports no runtime twice, and then a runtime whose
 * only port maps private port 22 to 1.2.3.4:40222.
 */
module Scenario {
  import opened Wrappers
  import opened PyJson
  import opened Graphql
  import opened Readiness
  import opened Launcher

  /** A successful GraphQL answer carrying `data.<name> = value`. */
  function Answer(name: string, value: Json): Reply {
    Response(200, Some(Obj(map["data" := Obj(map[name := value])])))
  }

  const SshEntry: Json :=
    Obj(map["privatePort" := Num(22), "publicPort" := Num(40222), "ip" := Str("1.2.3.4"), "isIpPublic" := Bool(true)])

  const Booting: Reply := Answer("pod", BootingPod)

  const Running: Reply := Answer("pod", RunningPod)

  const Created: Reply :=
    Answer("podFindAndDeployOnDemand", Obj(map["id" := Str("abc123"), "costPerHr" := Float(0.89)]))

  lemma ScenarioCreatesPod()
    ensures DeployResult(Created) == Ok(Str("abc123"))
  {
  }

  const BootingPod: Json := Obj(map["id" := Str("abc123"), "runtime" := Null])

  const RunningPod: Json := Obj(map["id" := Str("abc123"), "runtime" := Obj(map["ports" := Arr([SshEntry])])])

  lemma ScenarioPodInfo()
    ensures GetPodInfo(Booting) == Ok(BootingPod)
    ensures GetPodInfo(Running) == Ok(RunningPod)
  {
  }

  lemma ScenarioBootSteps()
    ensures BootStep(Booting) == NotReady
    ensures BootStep(Running) == Ready(())
  {
    ScenarioPodInfo();
  }

  /** Whatever the later replies are, the boot loop ends on the third one. */
  lemma ScenarioBootsOnThirdPoll(later: seq<Reply>)
    ensures Poll(BootSteps([Booting, Booting, Running] + later)) == Succeeded((), 3)
  {
    ScenarioBootSteps();
    var replies := [Booting, Booting, Running] + later;
    assert replies[0] == Booting && replies[1] == Booting && replies[2] == Running;
    var steps := BootSteps(replies);
    assert !steps[0].Ready? && !steps[1].Ready? && steps[2].Ready?;
    PollFindsFirstReady(steps, 2);
  }

  lemma ScenarioPortDigits()
    ensures Digits(40222) == "40222"
  {
    assert DigitChar(0) == '0' && DigitChar(2) == '2' && DigitChar(4) == '4';
    assert Digits(40) == "40";
    assert Digits(402) == "402";
    assert Digits(4022) == "4022";
  }

  lemma ScenarioPortText()
    ensures PortText(SshEntry.fields) == "40222"
  {
    assert DictGet(SshEntry.fields, "publicPort", Num(22)) == Num(40222);
    ScenarioPortDigits();
  }

  lemma ScenarioEntry()
    ensures EndpointStep(SshEntry.fields) == Ready(Endpoint(Str("1.2.3.4"), "40222"))
  {
    ScenarioPortText();
  }

  lemma ScenarioSshEndpoint()
    ensures SshStep(Running) == Ready(Endpoint(Str("1.2.3.4"), "40222"))
  {
    ScenarioPodInfo();
    ScenarioRunningPorts();
    ScenarioEntry();
    SshUsesFirstSshEntry(RunningPod, [SshEntry], 0);
  }

  lemma ScenarioRunningPorts()
    ensures RuntimePorts(RunningPod, [SshEntry]) && IsSshEntry(SshEntry) && PassedOver([SshEntry], 0, 0)
  {
  }

  /** Whatever the later replies are, the SSH loop ends on the first one with that endpoint. */
  lemma ScenarioSshLoop(later: seq<Reply>)
    ensures Poll(SshSteps([Running] + later)) == Succeeded(Endpoint(Str("1.2.3.4"), "40222"), 1)
  {
    ScenarioSshEndpoint();
    var replies := [Running] + later;
    assert replies[0] == Running;
    PollFindsFirstReady(SshSteps(replies), 0);
  }

  /** The alias of the new pod. */
  lemma ScenarioAlias()
    ensures Alias("abc123") == "runpod-abc123"
  {
  }

  /**
   * A manager started at 2026-10-14 10:22:00 with an empty SSH configuration
   * registers the pod: the file then holds exactly the one entry for
   * `runpod-abc123`, naming the pod, the endpoint and the user's key.
   */
  method ScenarioRegistersPod() returns (alias: string, config: string)
    ensures alias == "runpod-abc123"
    ensures config == ConfigBlock("a100-pcie-pod-20261014-102200", "runpod-abc123", "1.2.3.4", "40222", "/home/dev/.ssh/id_rsa")
  {
    var m := new PodManager("ssh-ed25519 AAAA dev@host", "20261014-102200", "/home/dev", "");
    assert m.podName == "a100-pcie-pod-20261014-102200";
    assert m.sshKeyPath == "/home/dev/.ssh/id_rsa";
    alias := m.UpdateSshConfig("abc123", "1.2.3.4", "40222");
    ScenarioAlias();
    config := m.sshConfig;
    assert config == "" + ConfigBlock(m.podName, alias, "1.2.3.4", "40222", m.sshKeyPath);
  }
}
