# Lab instrument control: power, attenuators, S-parameter capture and safe switching

This project models the control logic of `Lab/Lab.py`, a laboratory driver layer for
three instruments:

- a Keysight PNA network analyser (`EnhancedPNA`) with an optional pair of external
  step attenuators;
- a cryogenic RF switch (`LabSwitch`, contacts 1 to 6 on sides A and B);
- the HEMT amplifier bias controller driven by that switch.

The hardware becomes abstract state. The analyser's formats, its source power and
the two attenuator values are fields of two classes. The switch contacts and the
gate and drain outputs are fields of a third class, and every hardware action is
appended to an event log.

Modules:

- `Wrappers` (`wrappers.dfy`): `Option` and `Result`.
- `Snp` (`snp.dfy`): the pure part of the S-parameter capture, made of three pieces:
  - the flat reply of the analyser;
  - its reshaping into one complex `nports` × `nports` matrix per frequency point;
  - the reply the analyser sends for a known network. Reshaping that reply gives the
    network back. A reply of exactly one frequency row and two rows per port pair is
    the reply of its own reshaped network. A longer reply also reshapes, but its extra
    rows are dropped.
- `Pna` (`pna.dfy`): the power mapping and the attenuator pair. `EnhancedPna` holds the
  attenuator pair and the query formats. `Channel` has three operations:
  - `SetPower` and `GetPower`;
  - `SetPowerLevel`, the `power_level` validator;
  - `GetS2PNetwork`, which fills an `array3` in the nested `n`/`m` loops and saves and
    restores the two formats.
- `Bias` (`bias.dfy`): the `np.arange` ramps `gate_vs` and `drain_vs` over exact reals.
- `Switching` (`switching.dfy`): channel resolution and the re-prompting confirmation
  loop. It also holds `SafeConnectRun`, the reference function for the events and the
  outcome of `safeConnect`. `LabSwitch` is a class whose `SafeConnect` method is proved
  against `SafeConnectRun`.

Where the code is looser than its documentation, the model follows the code:

- A device name is looked up in `devices`, and the number found there is used as it is,
  with no check that it lies in [1, 6].
- An unknown name raises `KeyError`. It is modelled as `UnknownDevice`.
- The capture restores the query format and the SNP format only on a normal return.
- `setPower(P)` with `P > 0` first resets the attenuators to 0 dB. Only then does the
  `power_level` validator raise, leaving the source level unchanged.
- No ramp-down is skipped or added beyond what the code does. A mixed bias, with one
  output on and one off, raises before any hardware action.

## Model

| member | source | states |
|---|---|---|
| Pna.PowerSettings | Lab/Lab.py:41-50 | setPower returns normally exactly for -120 ≤ P ≤ 0. The source level it sets is valid for the [-90, 0] validator, and the attenuation is in [0, 30]. Level minus attenuation is P. The attenuation is 0 exactly when P ≥ -90. From -90 to 0 the setting is level P with no attenuation. From -120 to below -90 it is level -90 with attenuation -P - 90, so `setPower(-95)` gives 5 dB. Below -120 it raises the range error; above 0 the validator raises. |
| Pna.Channel.SetPower | Lab/Lab.py:41-50 | Succeeds exactly when the setting exists. On success the source level and both attenuators hold that setting, so `getPower()` returns P. Below -120 nothing changes. Above 0 the attenuators are reset to 0 and the source level is kept. |
| Pna.Channel.GetPower | Lab/Lab.py:52-55 | Source level minus the common attenuation. Raises exactly when the two attenuators disagree. |
| Pna.Channel.SetPowerLevel | Lab/Lab.py:79-84 | The `power_level` validator accepts exactly [-90, 0] and stores the value. Otherwise it raises and leaves the level unchanged. |
| Pna.Channel.constructor | Lab/Lab.py:36-39 | A channel of its parent analyser with the given number, sweep points and source level. |
| Pna.EnhancedPna.GetAttn | Lab/Lab.py:229-236 | Returns the common value exactly when both units agree. Otherwise it raises the dissimilar-attenuation error. |
| Pna.EnhancedPna.SetAttn | Lab/Lab.py:238-243 | Succeeds exactly for a in [0, 30]. Both units then hold a, and `getAttn()` returns a. Otherwise it raises and neither unit changes. |
| Pna.EnhancedPna.constructor | Lab/Lab.py:217-249 | Binary 64-bit replies and channel 1 active. With attenuators fitted, both start at 0 dB. |
| Pna.Channel.GetS2PNetwork | Lab/Lab.py:107-169 | The active channel becomes this one. The capture succeeds exactly when the reply reshapes for the port count, and otherwise it raises the reshape error. On success it returns a fresh `npoints` × `nports` × `nports` array equal to `Reshaped` of the reply, and both formats hold their values from entry. On failure the formats are left as binary and "RI". |
| Pna.FillNetwork | Lab/Lab.py:159-164 | After the nested loops over n and m, every entry `s[k, n, m]` is the assembled network entry. |
| Pna.FillPair | Lab/Lab.py:163-164 | Fills column (n, m) from real and imaginary row `n * nports + m` for every point. No other entry changes. |
| Snp.PortsOrDefault | Lab/Lab.py:111-112 | Given ports are used as they are. Without them the ports are 1..nports in order. |
| Snp.Product | Lab/Lab.py:120 | The product has `len(xs) * len(ys)` pairs. |
| Snp.ProductAt | Lab/Lab.py:120 | Row-major product order: pair (xs[n], ys[m]) is at index `n * len(ys) + m`. |
| Snp.MeasuredPairs | Lab/Lab.py:120 | The measured parameters `S<a><b>` of the capture, one per ordered pair of ports: `len(ports)²` of them. |
| Snp.MeasuredPairAt | Lab/Lab.py:120 | The measured parameter at index `n * nports + m` is S(ports[n], ports[m]). |
| Snp.Rows | Lab/Lab.py:152 | The reshape gives `nrows` rows of `ncols` values each. |
| Snp.RowsAt | Lab/Lab.py:152 | Row r, column k of the reshape is flat value `r * ncols + k`. |
| Snp.RowsOfConcat | Lab/Lab.py:139-152 | Flattening rows of equal length and reshaping gives the rows back. |
| Snp.ConcatOfRows | Lab/Lab.py:139-152 | Reshaping a flat reply and flattening it again gives the reply back. |
| Snp.Evens | Lab/Lab.py:159 | `data[::2]`, the real rows. It holds ⌈len/2⌉ rows. |
| Snp.Odds | Lab/Lab.py:160 | `data[1::2]`, the imaginary rows. It holds ⌊len/2⌋ rows. |
| Snp.EvensOddsAt | Lab/Lab.py:159-160 | Row j of the data is row j/2 of `data[::2]` when j is even, and of `data[1::2]` when j is odd. |
| Snp.EvensOddsOfInterleave | Lab/Lab.py:159-160 | `[::2]` and `[1::2]` of interleaved rows give the real rows and the imaginary rows back. |
| Snp.InterleaveOfEvensOdds | Lab/Lab.py:159-160 | An even number of data rows is the interleaving of its `[::2]` and `[1::2]` parts. |
| Snp.Assemble | Lab/Lab.py:156-164 | The assembled array has npoints matrices of nports × nports entries. |
| Snp.AssembleAt | Lab/Lab.py:161-164 | Entry [k][n][m] is real row i plus 1j times imaginary row i at point k, with `i = n * nports + m`. |
| Snp.ReplyRows | Lab/Lab.py:149-164 | On success there are sweep points, and the row count is `len // npoints`. The row count divides the reply length, and with ports every row holds npoints values. The error cases are stated by `ReplyRowsErr`. |
| Snp.ReplyRowsErr | Lab/Lab.py:149-164 | No sweep points (`ZeroDivisionError`) exactly when npoints is 0. A failed reshape (`ValueError`) exactly when the row count is 0 or does not divide the reply. A row-length mismatch (the broadcast `ValueError`) only with ports, at least 3 rows, and rows not npoints long. Missing rows (`IndexError`) only with ports and fewer than 1 + 2·nports² rows. With no ports, any reply that reshapes succeeds. |
| Snp.ReplyRowsOk | Lab/Lab.py:149-164 | With at least one port, the reshape succeeds exactly when the reply is a whole number of rows of npoints values and has at least one frequency row plus two rows per pair. |
| Snp.DataRows | Lab/Lab.py:152 | `raw.reshape((nrows, -1))[1:]`: the reply without its frequency row has one row fewer than the reshape. With ports, every row holds npoints values. |
| Snp.DataRowsAt | Lab/Lab.py:152-160 | Real row i at point k is flat value `(1 + 2i) * npoints + k`. Imaginary row i at point k is flat value `(2 + 2i) * npoints + k`. |
| Snp.DataRowsShape | Lab/Lab.py:152-164 | For a reply that reshapes, the real rows and the imaginary rows each cover every pair with npoints values. |
| Snp.Reshaped | Lab/Lab.py:149-164 | The captured network has npoints matrices of nports × nports entries. |
| Snp.ReshapedAt | Lab/Lab.py:149-164 | `s[k][n][m]` is the complex number from flat values `(1 + 2i) * npoints + k` and `(2 + 2i) * npoints + k` of the reply, with `i = n * nports + m`. These are `FlatIndex(1 + 2i, npoints, k)` and `FlatIndex(2 + 2i, npoints, k)`, with `i = PairNumber(n, m, nports)`. |
| Snp.PairRowOfReshaped | Lab/Lab.py:159-164 | Reading pair i out of the reshaped network gives data row 2i (real parts) and data row 2i + 1 (imaginary parts). |
| Snp.ReplyRowList | Lab/Lab.py:139-147 | The reply of a network has a frequency row and two rows per pair, each with one value per point. |
| Snp.ReplyShape | Lab/Lab.py:139-152 | The reply of a network has length `(1 + 2·nports²) · npoints` and reshapes into that many rows. Its data rows are the real and imaginary rows interleaved. |
| Snp.ExactReply | Lab/Lab.py:149-152 | A reply of length `(1 + 2·nports²) · npoints` reshapes into exactly those rows. |
| Snp.ReshapedOfReply | Lab/Lab.py:139-164 | Reshaping the reply of a network gives that network back. |
| Snp.ReplyOfReshaped | Lab/Lab.py:139-164 | A reply of exactly one frequency row and two rows per pair is the reply of its own reshaped network. |
| Bias.Arange | Lab/Lab.py:313-314 | `np.arange(0, stop, step)` is empty exactly when stop ≤ 0, and otherwise starts at 0. |
| Bias.Trajectory | Lab/Lab.py:313-314 | `gate_vs` and `drain_vs` are `np.arange(0, setpoint + step/2, step)`. For a setpoint that is not negative the ramp is non-empty and starts at 0. |
| Bias.ArangeLength | Lab/Lab.py:312-314 | `np.arange(0, stop, step)` has the least length n with `n * step ≥ stop`. |
| Bias.ArangeBelowStop | Lab/Lab.py:312-314 | Every value of the ramp lies below its stop value. |
| Bias.ArangeStep | Lab/Lab.py:312-314 | Consecutive ramp values are exactly one step apart. |
| Bias.ArangeLast | Lab/Lab.py:312-314 | The last ramp value is at most one step below the stop value. |
| Bias.ArangeLastWhole | Lab/Lab.py:312-314 | When the stop is k whole steps, the ramp has k values and its last is exactly one step below the stop, which `np.arange` leaves out. |
| Bias.TrajectoryShape | Lab/Lab.py:312-314 | A ramp towards a setpoint that is not negative starts at 0 and rises by exactly one step. It stays below the setpoint plus half a step and ends no lower than half a step under it. |
| Bias.TrajectoryReachesSetpoint | Lab/Lab.py:312-314 | For a setpoint of k steps, the ramp has k + 1 values and its last value is the setpoint. This is the inclusion the comment at line 312 intends. |
| Bias.ConfiguredTrajectories | Lab/Lab.py:307-314 | The configured gate ramp has 23 values ending at 1.1 V. The drain ramp has 15 values ending at 0.7 V. |
| Switching.ResolveChannel | Lab/Lab.py:329-334 | An int resolves to itself exactly when it is in [1, 6], and otherwise raises. A str resolves to its `devices` entry exactly when one exists, and otherwise raises `KeyError`. Any other value raises. |
| Switching.DecisionOf | Lab/Lab.py:349-356 | The first 'y' or 'n' among the answers. A decision of Yes or No comes from an answer that is present. |
| Switching.Confirmation | Lab/Lab.py:349-356 | The prompt passes exactly outside safe mode or when the first decisive answer is 'y'. Otherwise it raises the not-powered-off error or runs out of input. |
| Switching.DecisionAt | Lab/Lab.py:349-356 | The first 'y' or 'n' among the answers decides the prompt. |
| Switching.NoDecision | Lab/Lab.py:349-356 | The prompt ends without a decision exactly when no answer is 'y' or 'n'. |
| Switching.ConfirmPoweredOff | Lab/Lab.py:349-356 | The prompt loop yields `Confirmation`. Outside safe mode it passes. In safe mode the first 'y' passes, the first 'n' raises, other answers re-prompt, and running out of answers raises. |
| Switching.SwitchSequence | Lab/Lab.py:359-366 | The switch operations of one call: both sides are connected to contact c. |
| Switching.SwitchSequenceOrder | Lab/Lab.py:359-366 | Only contact c is connected, and no disconnect follows a connect: both sides are opened before either is closed. |
| Switching.SafeConnectRun | Lab/Lab.py:327-371 | The events and outcome of one `safeConnect` call. On success the contact is the resolved channel. Its ordering and outcome are stated by the next two rows. |
| Switching.SafeConnectBiasFirst | Lab/Lab.py:327-345 | An unusable channel or a mixed bias ends the call with no hardware event. The ramp-down happens exactly when the channel resolves and both outputs are on. It is the first event, before any contact moves. |
| Switching.SafeConnectOutcome | Lab/Lab.py:327-371 | The call succeeds exactly with a usable channel, a consistent bias and, in safe mode, a 'y' as the first decisive answer. A first decisive 'n' raises. On success the log ends with DisconnectAll(A), Settle, DisconnectAll(B), Settle, Connect(A, c), Settle, Connect(B, c), TurnOn. On failure no contact moved and no ramp-up ran. |
| Switching.LabSwitch.SafeConnect | Lab/Lab.py:327-377 | The log grows by exactly the run's events, and the result is the run's outcome. On success both sides are on contact c and the bias is on. On failure the contacts are unchanged, and the bias is off if it was ramped down and unchanged otherwise. |
| Switching.LabSwitch.OperateSwitch | Lab/Lab.py:359-366 | Both sides end on exactly the one contact. The log grows by the switching sequence, in order. |
| Switching.LabSwitch.TurnOffBias | Lab/Lab.py:341 | Both outputs off; logs TurnOff. |
| Switching.LabSwitch.TurnOnBias | Lab/Lab.py:370-371 | Both outputs on; logs TurnOn with the configured ramps. |
| Switching.LabSwitch.DisconnectAllContacts | Lab/Lab.py:360-362 | Opens every contact of one side and leaves the other side as it was. |
| Switching.LabSwitch.ConnectContact | Lab/Lab.py:364-366 | Closes one more contact of one side and leaves the other side as it was. |
| Switching.LabSwitch.Pause | Lab/Lab.py:361-365 | Logs a settle pause. |
| Switching.LabSwitch.constructor | Lab/Lab.py:299-318 | The gate and drain ramps are the configured trajectories, and the device table is empty. |

## Left out

- `Lab/utils.py` (`db`, `find_resonators`) is not part of this model. It is floating-point signal processing and plotting.
- SCPI transport is not modelled: the command strings, the `PNA.command` descriptors for `avg_status` and `rfpower`, and `wait_for_complete`. The reply of the data query is a parameter, and queries of the formats become field reads.
- The body of `EnhancedPNA.__init__` is not modelled: the connection, the measurement and model checks, and the printed warnings. Only the state it leaves behind is.
- The `active_channel` property and its setter are not modelled, and neither are `delete_all_measurements` and `select_trace`. They are instrument I/O. Making a channel active is modelled as assigning its number.
- The runtime `MethodType` binding of `setPower`, `getPower`, `setAttn` and `getAttn` is not modelled. It becomes a construction-time flag `extAttn`, and those operations require it.
- Real arithmetic is exact. Floating-point rounding, NaN and the attenuators' hardware step size are not modelled.
- Pna.Channel.GetS2PNetwork: does not model `ntwk.frequency` beyond its length `npoints`. The frequency row of the reply is dropped as in the code.
- Vendor SDK internals are not modelled: the `turn_on`/`turn_off` ramp loops, `start`, `set_output_voltage`, the injected `getVoltage`, and the switch's `connect`/`disconnect_all`. Each becomes one logged action on the abstract bias or contact state.
- Timing is not modelled. `time.sleep(1)` is a `Settle` event, and the controller's `delay` is left out.
- Printed messages and the final display string are not modelled.
- Switching.LabSwitch.SafeConnect: returns the resolved contact number, where the source returns `None` and prints that number.
- Switching.ConfirmPoweredOff: the operator's answers are a finite sequence. End of input stands for the `EOFError` that `input` raises.
