# A100 pod launcher: a Dafny model of `PodManager`

`start_a100_pod.py` provisions one GPU pod on RunPod through its GraphQL API.
It waits until the pod reports a runtime, then waits again until the runtime
exposes an SSH endpoint, and then appends a `Host runpod-<id>` entry to the
user's SSH configuration. This project models the decision logic of its
`PodManager` class:

- the status and `errors` checks of `graphql_request`;
- the payload of `create_pod` and the checks on its response;
- the response-shape check of `get_pod_info`;
- the two bounded polling loops, `wait_for_pod_running` and `get_ssh_details`;
- the text `update_ssh_config` appends;
- the key preview.

Layout:

- `wrappers.dfy` has `Option` and `Result`.
- `pyjson.dfy` models decoded JSON as Python sees it. It covers truthiness, `in`, `[]`, `.get`, `== 22` and `str()`. It also proves that the text `str()` gives an integer is its canonical numeral: the only numeral without a superfluous leading zero or minus sign that reads back as that integer.
- `graphql.dfy` turns one HTTP reply into a result or the exception the script would raise. Every exception is a `Failure` value.
- `readiness.dfy` holds the per-attempt predicates of both loops, as `Step` values. It also holds `Poll`, the reference meaning of a bounded loop over such steps, and the lemmas about it: the first success wins, an exception is one more attempt, and a timeout comes after exactly the budget.
- `launcher.dfy` holds the `PodManager` class. The configuration is `const` fields. The SSH configuration file is a mutable `sshConfig` string that `UpdateSshConfig` appends to. The two loops are `for` loops proved against `Poll`.
- `scenario.dfy` is a worked run against concrete replies. Pod `abc123` is created. The boot loop succeeds on its third poll. The SSH loop succeeds on its first poll with host `1.2.3.4` and port `"40222"`. A manager with an empty SSH configuration then holds exactly the one entry for `runpod-abc123`.

The remote API is not called. Each `get_pod_info` call reads the next element of a sequence of replies. A loop reads exactly as many replies as attempts it makes. `sys.exit(1)` after a failed loop becomes the `TimedOut` outcome. `sys.exit(1)` after a failed creation becomes the `Err` outcome.

The status check rejects every status other than 200, other 2xx codes included, because the code compares with `!=` (`start_a100_pod.py:72`).

Two behaviours of the code are modelled as written:

- A `null` `publicPort` gives the port text `"None"`. That text is non-empty, so the SSH loop accepts it. `PortTextMeaning` states this.
- A string `publicPort` of `""` makes the attempt not ready.

## Model

| member | source | states |
|---|---|---|
| PyJson.Truthy | start_a100_pod.py:208 | Python truthiness: `None`, `False`, `0`, `0.0` and the empty string, list and dict are false, every other value true (a definition; used by every readiness test) |
| PyJson.DecimalText | start_a100_pod.py:252 | `str()` of an integer is a canonical numeral: digits with an optional minus sign, no leading zero except in `"0"`, no `"-0"` |
| PyJson.DecimalRoundTrip | start_a100_pod.py:252 | the text `str()` gives for an integer reads back as that integer |
| PyJson.DigitsOfValue | start_a100_pod.py:252 | digits without a superfluous leading zero are the digits of their own value |
| PyJson.CanonicalRoundTrip | start_a100_pod.py:252 | every canonical numeral is `str()` of the integer it denotes |
| PyJson.CanonicalIsDecimalText | start_a100_pod.py:252 | a canonical numeral is `str(n)` exactly when it denotes `n`, in both directions |
| PyJson.PyStr | start_a100_pod.py:252 | Python `str()` of a decoded value (a definition; its meaning is stated by `PyStrMeaning`) |
| PyJson.FormatFixed | start_a100_pod.py:155 | `f"{x:.3f}"` succeeds exactly for a float, a bool or an int of magnitude below 2^1024 - 2^970; a larger int raises OverflowError, a string ValueError, any other value TypeError |
| PyJson.PyStrMeaning | start_a100_pod.py:252 | `str()` of a string is the string itself, of any other value a non-empty text; of an integer it is a canonical numeral denoting it, and every canonical numeral denoting it is that text |
| PyJson.Contains | start_a100_pod.py:77 | `key in j`: for a dict it is key membership; it raises exactly when `j` is neither a dict, a list nor a string |
| PyJson.Subscript | start_a100_pod.py:78 | `j[key]` succeeds exactly on a dict holding the key, with that entry; a dict without it raises KeyError, anything else TypeError |
| PyJson.DictGet | start_a100_pod.py:149-153 | `d.get(key, default)` on a dict: the entry when the key is present, the default otherwise |
| PyJson.EqualsInt | start_a100_pod.py:242 | Python `j == k` for an integer `k`: an int or float of that value, or a bool whose int value it is (`22.0 == 22`, `True == 1`); nothing else (a definition; used by `IsSshEntry`) |
| PyJson.GetOr | start_a100_pod.py:208 | `j.get(key, d)` succeeds exactly on a dict, giving the entry or the default; elsewhere it raises AttributeError |
| Graphql.GraphqlRequest | start_a100_pod.py:72-80 | an accepted body had status 200, decoded as JSON and, being a dict, had no `errors` key; no response, a non-200 status, an undecodable body and `errors` each give their own failure |
| Graphql.DataField | start_a100_pod.py:144-147 | `result["data"][name]` is returned exactly when the response has `data.<name>`; a dict response missing either level is the "unexpected response" failure |
| Graphql.GetPodInfo | start_a100_pod.py:192-197 | the pod record is returned exactly when the request is accepted and carries `data.pod`; request failures pass through unchanged |
| Graphql.DeployResult | start_a100_pod.py:141-157 | the new pod's `id` is returned exactly when the request is accepted, has `data.podFindAndDeployOnDemand`, and that record has an `id` and a `costPerHr` that is a float, a bool or an int within float range (not null, and formattable by `:.3f`); request failures pass through |
| Graphql.DeployCostFailures | start_a100_pod.py:149-155 | for a deployment record with an `id`: a missing or null cost is the missing-cost failure, a string cost raises ValueError, a list or dict cost TypeError, an int beyond float range OverflowError |
| Readiness.Budget | start_a100_pod.py:203 | the number of attempts `range(1, max_attempts + 1)` runs: `max_attempts`, or none when it is not positive (a definition) |
| Readiness.Poll | start_a100_pod.py:203-220 | a bounded loop makes at most one attempt per step; a timeout used every step; a success ends on a ready step and returns its value |
| Readiness.PollFirstReadyWins | start_a100_pod.py:203-210 | a success is the first ready step; the loop times out exactly when no step is ready |
| Readiness.PollFindsFirstReady | start_a100_pod.py:208-210 | when step `k` is the first ready one, the loop returns its value after `k + 1` attempts |
| Readiness.PollTimesOut | start_a100_pod.py:219-220 | with no ready step the loop times out after exactly as many attempts as steps |
| Readiness.PollIgnoresLaterSteps | start_a100_pod.py:203 | a loop that succeeds within the given steps has the same outcome whatever steps follow them |
| Readiness.PollSeesOnlyItsAttempts | start_a100_pod.py:203 | the outcome depends only on the steps the loop actually consumed |
| Readiness.PollRaisedCountsAsNotReady | start_a100_pod.py:215-217 | an attempt that raised has the same effect on the loop as one that was not ready: it consumes one attempt and nothing else |
| Readiness.HasRuntime | start_a100_pod.py:208 | the pod record is a dict whose `runtime` is present and truthy (a definition; it is what `BootStep` is ready on) |
| Readiness.BootStep | start_a100_pod.py:205-208 | a boot attempt is ready exactly when `get_pod_info` succeeded and the pod has a truthy `runtime`; it raised exactly when `get_pod_info` failed or the pod is not a dict |
| Readiness.BootSteps | start_a100_pod.py:203-205 | one boot step per reply, in order |
| Readiness.IsSshEntry | start_a100_pod.py:242 | a port entry is a dict whose `privatePort` equals 22 in Python's sense (a definition; used by `SearchFromMeaning`) |
| Readiness.SearchFrom | start_a100_pod.py:241-244 | a found index is in range and points at a dict |
| Readiness.SearchFromMeaning | start_a100_pod.py:241-244 | a found entry has `privatePort == 22` and every earlier entry is a dict without it; "absent" means every entry is such a dict; a raise means some entry is not a dict (AttributeError on `.get`) |
| Readiness.SearchFindsFirst | start_a100_pod.py:241-244 | when the entry at `k` is the first with `privatePort == 22`, the search returns `k` |
| Readiness.PortEntries | start_a100_pod.py:241 | iterating a list yields its items; iterating a non-empty port list otherwise yields items only when it is a string |
| Readiness.PortText | start_a100_pod.py:252 | `str(port.get("publicPort", 22))` (a definition; its meaning is stated by `PortTextMeaning`) |
| Readiness.PortTextMeaning | start_a100_pod.py:252 | without `publicPort` the port text is `"22"`; an integer port gives the canonical numeral denoting it; `null` gives `"None"`; the text is empty exactly when `publicPort` is the empty string |
| Readiness.HostOf | start_a100_pod.py:251 | `ssh_port_info.get("ip")`: the `ip` entry, or `None` when absent (a definition) |
| Readiness.EndpointStep | start_a100_pod.py:251-263 | the `if ssh_host and ssh_port` decision on the found entry: ready with that host and port text when both are truthy, not ready otherwise (a definition; its meaning is stated by `EndpointStepMeaning`) |
| Readiness.EndpointStepMeaning | start_a100_pod.py:251-263 | once the SSH entry is found, the attempt never raises; it succeeds exactly when `ip` is truthy and `publicPort` is not the empty string, and then reports that host and the port text |
| Readiness.SshStepOf | start_a100_pod.py:229-235 | a pod without runtime, or whose runtime lacks a truthy `ports`, is not ready; a pod record that is not a dict raises AttributeError |
| Readiness.SshStep | start_a100_pod.py:228-267 | one SSH attempt: a failing `get_pod_info` is that exception, and a ready attempt had a pod with a truthy `runtime`; the rest of its meaning is in `SshStepOf` and the lemmas below |
| Readiness.SshSteps | start_a100_pod.py:227-229 | one SSH step per reply, in order |
| Readiness.SshNotReadyWithoutPort22 | start_a100_pod.py:241-249 | a list of port records none of which has `privatePort == 22` leaves the attempt not ready |
| Readiness.SshUsesFirstSshEntry | start_a100_pod.py:241-255 | the endpoint comes from the first `privatePort == 22` entry, whatever entries follow it |
| Readiness.SshReadyMeaning | start_a100_pod.py:232-260 | a ready SSH attempt had a runtime with a list of ports whose first SSH entry has a truthy `ip` and a non-empty port text, and reports exactly that host and text |
| Readiness.SshReadyImpliesBooted | start_a100_pod.py:232 | a snapshot that satisfies the SSH loop also satisfies the boot loop |
| Launcher.KeyPreview | start_a100_pod.py:95 | a key of at most 50 characters is shown whole; a longer one as its first 50 characters followed by `...`, 53 characters in all |
| Launcher.Alias | start_a100_pod.py:299 | the alias is `runpod-` followed by the pod id, and the id can be read back from it |
| Launcher.AliasOfPodId | start_a100_pod.py:299 | every text that reads back as a pod id is that id's alias |
| Launcher.SplitJoinLines | start_a100_pod.py:306-314 | lines without newlines, joined by newlines, split back into the same lines |
| Launcher.ConfigBlock | start_a100_pod.py:306-314 | the `config_entry` text: its nine lines joined by newlines (a definition; its reading is stated by `ConfigBlockReadsBack`) |
| Launcher.ConfigBlockReadsBack | start_a100_pod.py:306-314 | when no inserted value contains a newline, the appended entry splits into exactly its nine lines: blank, `# RunPod Pod:`, `Host`, `HostName`, `Port`, `User root`, `IdentityFile`, `StrictHostKeyChecking no`, blank |
| Launcher.FindSshPort | start_a100_pod.py:241-244 | the `for port in ports` loop with `break` returns what `SearchFrom` specifies: the first `privatePort == 22` entry, absent, or AttributeError |
| Launcher.PodManager.constructor | start_a100_pod.py:22-56 | the key and the existing SSH configuration are as given; the pod name is `a100-pcie-pod-` followed by the start-up timestamp; the identity file is `<home>/.ssh/id_rsa` |
| Launcher.PodManager.BuildEnvVars | start_a100_pod.py:113-118 | the environment list holds exactly one `PUBLIC_KEY` entry with the key when the key is non-empty, and is empty otherwise |
| Launcher.PodManager.DeployVariables | start_a100_pod.py:120-139 | every fixed field of the payload is the manager's configuration (secure cloud, public IP on, the pod name) and `env` is the given list |
| Launcher.PodManager.CreatePod | start_a100_pod.py:112-157 | the payload sent carries the configuration and the key-dependent `env`; the outcome is the pod id or the failure `DeployResult` specifies |
| Launcher.PodManager.PodIsRunning | start_a100_pod.py:204-217 | one boot attempt answers true exactly when its step is ready; exceptions answer false |
| Launcher.PodManager.SshEndpointOf | start_a100_pod.py:228-267 | one SSH attempt answers an endpoint exactly when its step is ready, and then the endpoint that step found |
| Launcher.PodManager.WaitForPodRunning | start_a100_pod.py:199-220 | the loop equals `Poll` over the boot steps of the first `max(0, max_attempts)` replies; it makes at most that many calls; a timeout made exactly that many with none ready; a success stopped at the first ready reply |
| Launcher.BootPollMeaning | start_a100_pod.py:203-220 | `Poll` over the boot steps of the first `n` replies makes at most `n` attempts; a timeout made `n` with no reply ready; a success stopped at the first ready reply |
| Launcher.PodManager.WaitForPodRunningByDefault | start_a100_pod.py:199 | called without `max_attempts`, as `run` does, the boot loop is `Poll` over the first 60 replies and makes at most 60 attempts, exactly 60 on a timeout |
| Launcher.SshPollMeaning | start_a100_pod.py:227-270 | `Poll` over the SSH steps of the first `n` replies makes at most `n` attempts; a timeout made `n` with no reply ready; a success returns the endpoint of the first ready reply |
| Launcher.PodManager.GetSshDetails | start_a100_pod.py:222-270 | the loop equals `Poll` over the SSH steps of the first 40 replies; at most 40 calls; a timeout made exactly 40 with none ready; a success returns the endpoint of the first ready reply |
| Launcher.PodManager.UpdateSshConfig | start_a100_pod.py:297-320 | the configuration only grows: the old text is kept as a prefix and one entry for `runpod-<pod_id>` follows; the alias is returned |
| Launcher.RegisterTwoPods | start_a100_pod.py:316-317 | two registrations append two entries in order and keep everything before them |
| Scenario.ScenarioCreatesPod | start_a100_pod.py:144-157 | a deployment answer with id `abc123` and a cost returns `abc123` |
| Scenario.ScenarioBootsOnThirdPoll | start_a100_pod.py:203-210 | two snapshots without runtime and then one with it end the boot loop after three attempts, whatever follows |
| Scenario.ScenarioSshEndpoint | start_a100_pod.py:237-260 | one SSH attempt on a runtime whose port record maps 22 to `1.2.3.4:40222` yields host `1.2.3.4` and port text `"40222"` |
| Scenario.ScenarioSshLoop | start_a100_pod.py:227-260 | the SSH loop run on that reply first, whatever follows, succeeds after one attempt with that endpoint |
| Scenario.ScenarioRegistersPod | start_a100_pod.py:297-317 | a manager started at `20261014-102200` with an empty SSH configuration, after registering `abc123`, answers `runpod-abc123` and holds exactly the one entry for that pod, endpoint and key |

## Left out

- HTTP transport, the endpoint URL, headers and the `api_key` query parameter are left out. A call is represented only by its outcome, a `Reply`.
- The GraphQL query and mutation texts are left out. They are constants the server interprets.
- JSON encoding of the payload is left out. `DeployInput` is a typed record of the `input` object.
- JSON decoding of the response is left out. A reply carries an already-decoded value, or none when `response.json()` raised.
- `time.sleep(5)` between attempts, and the 15 s wait before the SSH test, are left out. They do not affect decisions.
- Launcher.PodManager.constructor: the `time.strftime('%Y%m%d-%H%M%S')` text is the `timestamp` parameter, and its format is not checked. The pod name is `a100-pcie-pod-` followed by it.
- The file reads of `__init__` are left out. That covers the API key file, the exit when it is missing, and the public key file with its stripping. The key and the existing SSH configuration are constructor parameters.
- `mkdir` of `~/.ssh` and the actual file append are left out. The SSH configuration file is the `sshConfig` field. `Path` joining is modelled as text concatenation.
- `add_to_known_hosts`, `test_ssh_connection`, `launch_vscode`, `print_summary` and `run` are left out. They are subprocess calls and console output outside the modelled decision logic. Only `run`'s call of `wait_for_pod_running` with the default attempt count is modelled, as `WaitForPodRunningByDefault`.
- `KeyboardInterrupt` handling is left out.
- The console messages, and the text of exception messages, are left out. Failures are distinguished by kind and payload.
- The text the `:.3f` format produces for `costPerHr` is left out. Whether that format raises is modelled, by `FormatFixed`.
- `list_ssh_keys.py` and `list_network_volumes.py` are not part of this model.
- PyStr: `str()` of a float, list or dict is a fixed non-empty placeholder, not Python's `repr`. Its exact text would reach the `Port` line of the SSH configuration entry and the `ssh-keyscan` command. This model uses only its non-emptiness.
- JSON numbers are modelled as integers or reals. In `PyJson.EqualsInt` a float like `22.0` compares equal to 22, as in Python.
- Iterating a non-empty dict as the port list is modelled only by its first effect: the keys are strings, so `.get` raises AttributeError on the first one.
- Launcher.PodManager.WaitForPodRunning requires at least `max(0, max_attempts)` replies. Launcher.PodManager.GetSshDetails requires at least 40. The loops read exactly as many as they make attempts, so shorter streams are not needed.
- Launcher.PodManager.CreatePod: the failure path ends in `sys.exit(1)` in the source. Here it is the `Err` outcome returned to the caller.
