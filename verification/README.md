# NotifyPing reachability monitor in Dafny

NotifyPing is a single Python script, `notify_ping.py`. It pings one target
host at a fixed interval. When the target stops or starts answering, it
e-mails a notification. Before each notification it pings a well-known
external host (the "gate") to check that its own network connection works.
If that check fails, it prints "Unable to send email notification." and
sends nothing.

This project models the script's decision logic as pure functions and proves
properties of it:

- `Settings`: the startup parameters and the check that all five mandatory
  ones (address, smtpaddr, email, to, pswd) are given and non-empty.
- `Prober`: the `ping` verdict computed from the platform, the decoded
  command output and the exit status. This includes Python's `str.find`,
  which Windows uses to look for the "host unreachable" phrase.
- `Notifier`: the notification text `Connection to <address> is
  restored!|lost!`, its inverse `ParseMessage`, the mail `send_message`
  submits (port 587), and `try_send_message`, which sends only when the gate
  passes.
- `Monitor`: the state machine. `Phase` is `Starting`, or
  `Watching(wasConnected)` once the first probe is made. `Step` is one tick,
  and `Run` folds it over a finite sequence of ticks. `WatchLoop` copies the
  script's own control flow (the initial probe, then the loop body) and is
  proved to produce exactly the trace of `Run`.
- `Traces`: lemmas about whole runs.
  - Each tick's event is given in closed form.
  - Ticks whose probe does not change are quiet (debouncing).
  - The number of attempts equals the number of adjacent changes, plus one
    when the first probe is down.
  - Attempts alternate between "lost" and "restored", and the first one is
    always "lost".
  - The gate decides only whether an attempt is delivered. It never affects
    the recorded state or the decision to attempt.

Each tick is modelled by two inputs. `probe` is the result of pinging the
target. `gate` is what the self-connectivity check would answer if this tick
makes an attempt.

A useful fact about the first tick (`Monitor.FirstTickActsAsConnected`): it
behaves exactly like a later tick after the target was up. The assignment
`was_connected = False` at line 109 is never observed, because both branches
that follow overwrite it.

Three facts about the script shape the model:

- The script has no probe-execution error. `subprocess.getstatusoutput` runs
  the command through the shell, so a missing `ping` binary gives a non-zero
  status, and the target counts as down.
- The script has no typed notification errors. `smtplib` exceptions are not
  caught and end the script. `was_connected` is assigned after
  `try_send_message` returns, not before the attempt.
- From the start of a run, Down→Up→Down gives three attempts (lost, restored,
  lost), because a first probe that is down is also notified
  (`Traces.DownUpDownFromStart`). `Traces.AttemptCount` states the exact
  count for any run.

## Model

| member | source | states |
|---|---|---|
| Settings.Validate | notify_ping.py:102-104 | startup succeeds iff address, smtpaddr, email, to and pswd are all given and non-empty; otherwise it fails with the fixed "Some required parameters are missing" message; on success every parameter is carried over unchanged |
| Prober.FindFrom | notify_ping.py:42 | returns -1 exactly when the pattern occurs nowhere at or after the start position; otherwise returns an occurrence with no earlier occurrence from the start position |
| Prober.Find | notify_ping.py:42-44 | like Python's `str.find`: -1 iff the pattern occurs nowhere; otherwise the least index where it occurs |
| Prober.Ping | notify_ping.py:31-55 | off Windows, up iff exit status is 0; on Windows, down whenever the output contains the unreachable phrase, and otherwise up iff exit status is 0 |
| Prober.UpNeedsSuccess | notify_ping.py:44-53 | on every platform, a reachable verdict implies exit status 0 |
| Prober.PhraseOverridesStatus | notify_ping.py:42-49 | on Windows, an output that contains the unreachable phrase gives "down" even with exit status 0 |
| Notifier.MessageText | notify_ping.py:62 | the body is "Connection to ", then the address, then " is restored!" when up or " is lost!" when down, and nothing else |
| Notifier.ParseMessage | notify_ping.py:62 | every body it accepts is exactly the notification text for the address and direction it returns |
| Notifier.MessageRoundTrip | notify_ping.py:62 | the text "Connection to A is restored!/lost!" reads back as address A and the direction it was composed with |
| Notifier.MessageTextInjective | notify_ping.py:62 | different (address, direction) pairs give different notification texts |
| Notifier.ComposeMail | notify_ping.py:58-63 | the mail goes to the configured SMTP server on port 587, logs in and sends as the configured mailbox with its password, goes to the configured recipient, and its body announces the transition of the monitored address |
| Notifier.ValidatedMailIsAddressed | notify_ping.py:58-63 | with settings that passed the startup check (lines 103-104), the mail has a non-empty server, login, password, sender and recipient, and its body names a non-empty address |
| Notifier.TrySend | notify_ping.py:79-84 | the sender is used iff the fresh gate check passes; a sent outcome carries the composed mail, and a failed gate gives the unsent outcome |
| Monitor.Step | notify_ping.py:108-142 | after any tick the recorded state equals the tick's probe; the first tick attempts iff the target is down; a later tick attempts iff the probe differs from the recorded state; an attempt goes in the probe's direction through the gate; a tick that agrees with the recorded state changes nothing |
| Monitor.FirstTickActsAsConnected | notify_ping.py:108-117 | the initial probe behaves exactly as a loop tick would with `was_connected` true |
| Monitor.Run | notify_ping.py:108-142 | a run gives one event per tick; before any tick the phase is Starting; afterwards the recorded state is the latest probe |
| Monitor.WatchLoop | notify_ping.py:108-142 | the script's initial block and loop body, run on a mutable flag, produce exactly the trace of Run and end with the flag equal to the last probe |
| Traces.EventAt | notify_ping.py:108-142 | tick i attempts iff it is a transition (first probe down, or probe differs from the previous probe); the attempt goes in the new probe's direction and is gated by that tick's check |
| Traces.Debounced | notify_ping.py:125-139 | a tick whose probe equals the previous probe attempts no notification |
| Traces.AttemptCount | notify_ping.py:108-142 | the number of attempts in a run is the number of adjacent probe changes, plus one when the first probe is down |
| Traces.GateDecidesDeliveryOnly | notify_ping.py:127-139 | runs with the same probes but any gate answers end in the same state and attempt at the same ticks in the same directions |
| Traces.SameDecisionAt | notify_ping.py:127-139 | for one tick: equal probes give the same attempt decision and direction whatever the gates said |
| Traces.DeliveryFollowsGate | notify_ping.py:79-84 | an attempt is delivered iff that tick's gate passed, and a delivered attempt carries the composed mail for the new state |
| Traces.AttemptsAlternate | notify_ping.py:125-139 | two consecutive attempts report opposite directions, so a sustained state is never notified twice |
| Traces.FirstAttemptIsLost | notify_ping.py:108-139 | the first attempt of a run always reports "lost"; no "restored" is sent without a "lost" attempt before it |
| Traces.DownUpDownFromStart | notify_ping.py:108-142 | from the start of a run, probes down, up, down give three attempts, lost, restored, lost, whatever the gates answer |
| Traces.Scenario | notify_ping.py:108-142 | with the probes up, up, down, down, up and every gate passing, the run is quiet, quiet, lost, quiet, restored, and it ends up |

## Left out

- Running `ping`: `sp.getoutput`, `sp.getstatusoutput` and `sp.check_call` are not modelled. The probe's exit status and output are inputs to `Prober.Ping`. Each tick's probe and gate answers are inputs to the monitor.
- The ping command line: the `-n`/`-c` flag and the `ping ... 4 <host>` string (lines 33-34) only feed the subprocess, whose run is an input here.
- Platform detection: `platform.system().lower()=='windows'` is represented by the `Platform` input.
- Windows runs the ping command twice. The phrase search reads the first run's output, and the verdict uses the second run's exit status. The model takes both as independent inputs.
- Decoding Windows output: encoding detection with chardet and the cp1251 re-decoding are foreign-library behaviour. Their possible failures are not modelled either. `Prober.Ping` receives the already-decoded text.
- The gate command: `internet_connected` pings www.google.ru, and a `CalledProcessError` means "no connection". The model uses only its boolean answer. Other exceptions, which would end the script, are not modelled.
- SMTP delivery: `smtplib` connection, STARTTLS, login and `sendmail` are network I/O. `Notifier.ComposeMail` gives the values handed to them. Their exceptions are uncaught in the script and end it, and that is not modelled.
- Time: `time.sleep(interval * 60)` and the endless `while True` are not modelled. A run is a finite prefix of ticks.
- Console output: the timestamped `print` lines are not modelled.
- Command-line parsing: argparse itself is not modelled. Neither is `int(namespace.interval)`, which runs before validation and ends the script on a non-integer. `Settings.Arguments` holds the parsed values, and the interval is already an integer.

