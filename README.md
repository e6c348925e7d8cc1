# traffic-runner, modelled in Dafny

traffic-runner is an SMB traffic generator. It has three phases. First it provisions one network
namespace per address in a range: a macvlan interface is created on a parent interface, moved into
the namespace, given the address and routed (`set_up`). Then it runs one `smbclient` download per
namespace concurrently and waits for one completion signal per worker (`spawn_task`). Last it deletes
the namespaces (`clean_up`). This project models the deterministic part of that program:

- the host planner (`Planner`);
- the exact command lines of each phase (`Commands`);
- the sequential phase drivers and the fan-in count of the dispatcher (`Phases`).

The command runner is abstract. A `Runner` is a function from the position of a command in its
phase and the command itself to an `Outcome`: either `output()` returned an `Err` with an
`IoError` (`SpawnFailed`), or the command completed with some exit status. In practice that `Err`
is a failed spawn, but tokio also returns one when waiting on the child or reading its pipes fails;
`SpawnFailed` stands for any of them, and "spawn failure" below means such an `Err`.

Files:

- `wrappers.dfy`: `Result` and `Option`.
- `format.dfy`: `Ipv4Addr` as a 32-bit value. Decimal formatting of an index (`format!("{}", idx)`)
  and dotted-quad formatting of an address (`Ipv4Addr::to_string`), with round-trip and
  injectivity lemmas.
- `planner.dfy`: `Ipv4AddrRange`, `LocalConfig`, `set_up_config`, the enumeration of hosts, and the
  namespace name, interface name and CIDR string of each host.
- `commands.dfy`: the argv of the seven provisioning commands, the namespace deletion and the
  client invocation, and the plan of each phase.
- `phases.dfy`: `set_up`, `clean_up` and `spawn_task` as methods with loops over the hosts, and the
  sequence in `main`.

Points where the code's behaviour is easy to misread, and what the model takes:

- **Address range.** It is inclusive at both ends and empty when base > end, as ipnet documents
  `Ipv4AddrRange::new`. The CLI help text (main.rs:234-248) describes the base address as excluded;
  the code does not exclude it. The assumption lives in one function, `Planner.RangeAddresses`. So
  base 10.0.1.1 and end 10.0.1.4 give four hosts (`Planner.ExampleRun`).
- **No range error.** `set_up_config` has no error path: it always returns `Ok` (line 169), and an
  inverted range simply has no hosts.
- **Exit statuses.** They are never checked. Only an `Err` from `output()`, in practice a spawn
  failure, stops `set_up` or `clean_up`, through `?`.
- **Deletion.** `clean_up` is fail-fast, not best-effort.
- **Fan-in.** A dispatch worker whose spawn fails sends nothing. The consumer is still written to
  make `count` calls of `recv().unwrap()`. Once every worker has finished, the channel is empty and every
  sender has been dropped, so the receive numbered by the count of signals sent returns
  `Disconnected` and the `unwrap` panics. That receive is the first one past the signals received.
  A panic in `main` ends the process, so `clean_up` is then never reached.
  `Phases.DispatchDrainsIffAllRan` and `Phases.TrafficRun` state this: the consumer finishes its
  `count` receives, and `clean_up` runs, exactly when every worker's command could be spawned.

## Model

| member | source | states |
|---|---|---|
| Planner.RangeAddressesAt | traffic-runner/src/main.rs:159-160 | the enumerated range has `size_hint` addresses (end − start + 1, or 0 when start > end), the i-th being start + i |
| Planner.SetUpConfig | traffic-runner/src/main.rs:152-170 | never returns `Err`; keeps the range and copies interface, CIDR suffix and namespace base verbatim; `count` equals the number of hosts every phase enumerates |
| Planner.Hosts | traffic-runner/src/main.rs:19 | `enumerate()` pairs index i with address start + i, for size-hint many hosts |
| Planner.RangeAddresses | traffic-runner/src/main.rs:159 | the range yields nothing exactly when start > end, and every address it yields lies between start and end |
| Planner.SizeHint | traffic-runner/src/main.rs:160 | the hint is non-zero exactly when start ≤ end, then start + hint − 1 is the end address; it never exceeds 2^32 |
| Planner.HostsAscending | traffic-runner/src/main.rs:173 | addresses strictly increase with the index |
| Planner.HostsEndpoints | traffic-runner/src/main.rs:159 | whenever there is at least one host, the first is the base address and the last is the end address |
| Planner.HostsEmpty | traffic-runner/src/main.rs:159 | there are no hosts exactly when base > end |
| Planner.ExampleRun | traffic-runner/src/main.rs:152-170 | base 10.0.1.1, end 10.0.1.4: count 4, host 0 is `ns0`/`macvlan0` with `10.0.1.1/24`, host 3 gets `10.0.1.4/24` |
| Format.Decimal | traffic-runner/src/main.rs:24-25 | the text of an index is non-empty and made of decimal digits only |
| Format.DecimalLeadingDigit | traffic-runner/src/main.rs:24-25 | the text starts with `0` exactly when the index is zero: no padding |
| Format.DecimalRoundTrip | traffic-runner/src/main.rs:24 | parsing the decimal text of an index gives the index back |
| Format.DecimalInjective | traffic-runner/src/main.rs:25 | different indices have different decimal texts |
| Format.DigitCountBound | traffic-runner/src/main.rs:20 | a number has at most k digits exactly when it is below 10^k |
| Format.Dotted | traffic-runner/src/main.rs:26 | `Ipv4Addr::to_string` holds only digits and dots, so it contains no `/` |
| Format.DottedInjective | traffic-runner/src/main.rs:26 | different addresses have different dotted-quad texts |
| Planner.NamespaceNameParses | traffic-runner/src/main.rs:24 | the namespace name is `base_namespace` followed by digits only, which read back as idx |
| Planner.InterfaceNameParses | traffic-runner/src/main.rs:25 | the interface name is `macvlan` followed by digits only, which read back as idx |
| Planner.NamespaceNameInjective | traffic-runner/src/main.rs:24 | `base_namespace ++ idx` determines idx, so namespace names are unique within a run |
| Planner.InterfaceNameInjective | traffic-runner/src/main.rs:25 | `"macvlan" ++ idx` determines idx, so interface names are unique within a run |
| Planner.InterfaceNameLength | traffic-runner/src/main.rs:25 | the interface name has 7 + (digits of idx) characters |
| Planner.InterfaceNameFits | traffic-runner/src/main.rs:20-25 | for any limit above 7, the name fits exactly when idx < 10^(limit − 7); nothing checks it |
| Planner.InterfaceNameWithinLimit | traffic-runner/src/main.rs:20-25 | with the stated limit of 16, the name fits exactly when idx < 10^9 |
| Planner.CidrInjective | traffic-runner/src/main.rs:26 | `addr ++ "/" ++ suffix` determines the address, so hosts get distinct CIDR strings |
| Planner.Cidr | traffic-runner/src/main.rs:26 | the text starts with the address's dotted text, the first `/` stands right after it, and the suffix follows unchanged and unvalidated |
| Commands.ProvisionCommands | traffic-runner/src/main.rs:27-141 | the seven argv vectors of one host, in the order `set_up` awaits them |
| Commands.DeleteCommand | traffic-runner/src/main.rs:178-182 | `/usr/sbin/ip netns del` with one operand, the namespace `base_namespace` ++ idx, which is the namespace `set_up`'s `ip netns add` created for the same host |
| Commands.DeleteCommandsDistinct | traffic-runner/src/main.rs:173-182 | different hosts get different deletion commands, so no namespace is deleted twice |
| Commands.ClientCommand | traffic-runner/src/main.rs:353-370 | `ip netns exec <base_namespace ++ idx> smbclient -Uguest -N //<smb>/public/ <smb> -c "get <file>"`: ten arguments, the share path built around the server's dotted address, and the file name carried verbatim after `get ` |
| Commands.ClientCommandsDistinct | traffic-runner/src/main.rs:353-362 | different hosts' workers run in different namespaces (argument 2 differs), so their commands differ |
| Commands.ProvisionPlanLength | traffic-runner/src/main.rs:19-147 | the provisioning plan has seven commands per host |
| Commands.SetUpPlanOrder | traffic-runner/src/main.rs:19-147 | positions 7k to 7k + 6 of the provisioning plan hold exactly host k's seven commands, so no command of host k + 1 comes before all seven of host k |
| Commands.SetUpPlanAt | traffic-runner/src/main.rs:19-147 | command j of host i stands at position 7i + j |
| Commands.PhasesAgreeOnNames | traffic-runner/src/main.rs:24-25 | `set_up` (line 24), `spawn_task` (line 353) and `clean_up` (line 174) derive the same namespace for host k; `set_up`'s `link add` names `macvlan` ++ k and its `link set` moves that interface into the namespace |
| Commands.ProvisionCommandsDisjoint | traffic-runner/src/main.rs:27-141 | two different hosts never share a provisioning command |
| Commands.ProvisionCommandsDistinct | traffic-runner/src/main.rs:27-141 | the seven commands of one host are pairwise different |
| Commands.ProvisionCommandsDiffer | traffic-runner/src/main.rs:27-141 | a command of another host, or another step of the same host, is a different command |
| Commands.SetUpPlanAtPosition | traffic-runner/src/main.rs:19-147 | position p of the provisioning plan holds step p mod 7 of host p div 7 |
| Commands.SetUpPlanDistinct | traffic-runner/src/main.rs:19-147 | no command appears twice in the provisioning plan |
| Phases.SetUp | traffic-runner/src/main.rs:17-150 | issues a prefix of the provisioning plan in order; stops right after the first spawn failure and returns its error; otherwise issues all of it and returns `Ok`; statuses are ignored |
| Phases.ProvisionHost | traffic-runner/src/main.rs:27-141 | one pass of `set_up`'s loop: host k's seven commands follow the first 7k in plan order; either all seven complete their spawn, or it stops right after the first that fails, with the run then meeting the fail-fast specification |
| Phases.AwaitEach | traffic-runner/src/main.rs:27-141 | issues the next commands of a plan one after another, each awaited, and stops at the first spawn failure, returning its error |
| Phases.FailFastUnique | traffic-runner/src/main.rs:27-32 | the fail-fast specification determines the result and the trace completely |
| Phases.FailFastStopsAtFirst | traffic-runner/src/main.rs:27-149 | when command f is the first whose spawn fails, exactly commands 0..f are issued and the result is that error |
| Phases.FailFastAllRan | traffic-runner/src/main.rs:147-149 | without a spawn failure the whole plan is issued and the result is `Ok` |
| Phases.FailFastIgnoresStatus | traffic-runner/src/main.rs:32 | runners that agree on spawn failures give the same run, whatever exit statuses they report |
| Phases.SetUpAllRan | traffic-runner/src/main.rs:19-149 | without a spawn failure `set_up` issues 7 × count commands and returns `Ok` |
| Phases.CleanUp | traffic-runner/src/main.rs:172-191 | one `ip netns del <base_namespace ++ idx>` per host in ascending order, fail-fast on spawn errors, statuses ignored |
| Phases.SignalsCount | traffic-runner/src/main.rs:373-380 | each worker sends one `0` when its command ran and nothing on a spawn error, so there are as many signals as workers exactly when none failed |
| Phases.Signals | traffic-runner/src/main.rs:373-380 | at most one signal per worker, and every signal is `0` |
| Phases.SpawnTask | traffic-runner/src/main.rs:346-389 | one smbclient command per host in spawning order; the signals sent; the consumer receives `count` of them, or all of them and then hits a disconnected channel when fewer were sent |
| Phases.Receive | traffic-runner/src/main.rs:385-388 | the `count` receives all succeed exactly when at least `count` signals were sent, and then yield the first `count` of them; otherwise every signal is received and the next receive panics |
| Phases.DispatchDrainsIffAllRan | traffic-runner/src/main.rs:383-388 | for a `set_up_config` configuration, the `count` receives all succeed, each yielding `0`, exactly when no worker's spawn failed |
| Phases.EmptyRange | traffic-runner/src/main.rs:385-388 | with no hosts nothing is issued, both sequential phases return `Ok` and the consumer performs no receive |
| Phases.TrafficRun | traffic-runner/src/main.rs:324-340 | `main` builds the configuration, runs `set_up` and ignores its result, runs a full dispatch, and runs `clean_up` exactly when no dispatch spawn failed |

## Left out

- Command-line parsing with clap, parsing of the addresses with `parse::<Ipv4Addr>().expect`, and
  the `process::exit(1)` paths (lines 195-322). The model starts from parsed values.
- Process execution itself is not modelled. Each phase takes a `Runner` parameter that supplies the
  outcome of every command it issues.
- The tokio tasks and the flume channel are modelled sequentially. Workers are issued in spawning
  order, and their signals are a sequence. Capacity 10, blocking sends, arbitrary interleaving of
  workers and the `unwrap` on `send_async` (which cannot fail while the consumer is still receiving)
  are not modelled. A command that never terminates, which would stall a phase forever, is not
  modelled either: every runner outcome is final.
- The 100 ms sleeps between phases (lines 337 and 339) are timing only.
- All `println!`/`eprintln!` output is left out. This includes the `mvlans` name in `clean_up`
  (line 175), whose only use is a message.
- The iterator internals of `ipnet::Ipv4AddrRange` are not modelled. `Planner.RangeAddresses` and
  `Planner.SizeHint` are assumed definitions of what it yields and reports.
- `usize` overflow is not modelled: `count` is at most 2^32 and fits a 64-bit `usize`. The
  saturation ipnet applies on 32-bit targets is not modelled.
- The `panic!` on an `Err` from `set_up_config` (line 333) cannot happen, because
  `Planner.SetUpConfig` always returns `Ok`.
- Planner.InterfaceNameWithinLimit: uses the limit of 16 characters stated in the source comment.
  Linux's `IFNAMSIZ` of 16 includes the terminating NUL, which leaves 15 visible characters. That
  case is `Planner.InterfaceNameFits` with limit 15, i.e. idx < 10^8.
