# Fushimi In-Airy — a Dafny model of the delay and reverb core

Fushimi In-Airy is an audio plugin in which torii gates are placed on a
mountain-shaped canvas. In **delay mode** each gate is an echo tap: its
horizontal position sets the delay time and its height sets the tap gain. In
**reverb mode** each gate is a Schroeder reverberator: the horizontal position
sets the decay time and the height sets the gain. The model covers these parts:

- the signal engines:
  - the 0.5 s-tail multi-tap delay;
  - the DelayV1 tap mixer with its 1 s tail and wet level;
  - the comb and allpass filters and their parallel and serial banks;
  - the Schroeder reverb;
  - the multi-instance reverb mixer;
  - the shared peak normaliser;
- the mappings from canvas or Figma coordinates to gate parameters, and the
  Figma layer loaders;
- the `FushimiInAiry` facade, with its mode, gates and mix levels;
- the state of the two Tk front ends: gate positions, dry/wet knob positions
  and the current mode. Each event handler is a method of a Dafny class.

Samples and parameters are `real`. Python's `int()` is `Numerics.Trunc`,
which truncates toward zero. `np.clip` is `Numerics.Clip`. The drag handlers'
`max(lo, min(v, hi))` is `DelayV1.Confine`. The functions `10**x` and
`log10` are passed in as `real -> real` parameters (`pow10`, `log10`). A
proof that needs a fact about them assumes only `Pow10Positive` or
`Log10Monotone`. Python exceptions become the `Err` branch of
`Signal.Result`:

| Error | Python source |
|---|---|
| EmptyMax | `max([])` |
| EmptyReduction | `np.max` over a zero-length buffer |
| ZeroDivision | a float division by zero |
| MissingKey | a gate dict without the key the engine reads |
| InvalidMode | `set_mode` with an unknown mode |

Every imperative engine is a `method` over an `array<real>` buffer. Each one
ensures its result equals a recursive specification function, and the
lemmas state the properties of those functions.

Modules, one per file, following the program's structure:

| module | what it holds |
|---|---|
| Numerics | Min, Max, Abs, clip and truncation |
| Signal | errors, sample buffers, peak, normalisation |
| Gates | the gate datatype and the per-tap arithmetic both delay engines share |
| Figma | layer filtering and position → parameter mapping |
| FigmaReverb | `reverb/figma_reverb.py` |
| ReverbEngine | `reverb/reverb_engine.py` |
| FushimiPlugin | `fushimi_plugin.py`, and the identical multi-tap delays of `delay/figma_delay.py` and `delay/test.py` |
| DelayV1 | `delay/DelayV1.py` |
| PluginDemo | `fushimi_plugin_demo.py` |

Where the code and its documentation disagree, the model follows the code:

- `fushimi_plugin.py:6` imports `reverb._engine`, a module that does not
  exist. The model treats it as `reverb/reverb_engine.py`.
- Both reverb engines leave the tail silent. A reverberation is only as long
  as its input (`end_idx` at `reverb/reverb_engine.py:203`), so the samples
  beyond the input stay zero. `ReverbEngine.MultiInstanceReverb` states this
  outright.
- The demo's `tail_factor` is `0.0` (`fushimi_plugin_demo.py:24`), not the
  0.4 the facade uses.
- When no demo reverb gate is active, the demo returns the input unchanged.
  It does not apply the dry level (`fushimi_plugin_demo.py:272-273`).
- A demo gate dragged to the left edge gets decay 0. Once it is loud enough
  to be active, reverb mode raises `ZeroDivisionError`
  (`PluginDemo.LeftEdgeGateFails`).
- DelayV1's `peak > 0.001` guard adds nothing, since division already needs
  `peak > 1`. No tap of DelayV1 is ever skipped, because the 1 s tail always
  covers the latest tap (`DelayV1.NoTapSkipped`).

## Model

Lemmas without a row are proof steps. They include the `...Unfold` lemmas,
which write a definition out as one equation, and `Numerics.MulMonotone`,
`Numerics.DivMonotone`, `FushimiPlugin.SameMembers` and
`FushimiPlugin.RemoveAt`.

| member | source | states |
|---|---|---|
| Numerics.Min | reverb/reverb_engine.py:141 | the smaller operand: a lower bound of both, equal to one of them |
| Numerics.Max | reverb/reverb_engine.py:180 | the larger operand: an upper bound of both, equal to one of them |
| Numerics.Abs | reverb/reverb_engine.py:209 | the magnitude `np.abs`: non-negative and equal to ±a |
| Numerics.Clip | reverb/reverb_engine.py:197 | `np.clip` lands in [lo, hi]: values below lo become lo, values above hi become hi, in-range values stay as they are, and an empty range gives hi |
| Numerics.ClipMonotone | reverb/figma_reverb.py:26-27 | clipping preserves order |
| Numerics.Trunc | fushimi_plugin.py:28 | `int()` truncates toward zero: the integer part from below for non-negative values, from above for negative ones |
| Numerics.TruncMonotone | fushimi_plugin.py:28 | truncation preserves order on non-negative values |
| Numerics.TruncAddNat | delay/DelayV1.py:129 | adding a whole number of samples commutes with truncation |
| Signal.Zeros | reverb/reverb_engine.py:184 | `np.zeros(n)` has length n and only zero samples |
| Signal.Scale | fushimi_plugin.py:172 | `signal * c` multiplies every sample and keeps the length |
| Signal.Add | fushimi_plugin_demo.py:287 | `a + b` adds sample-wise and keeps the length |
| Signal.Peak | reverb/reverb_engine.py:209 | `np.max(np.abs(s))` bounds every magnitude and is attained by some sample |
| Signal.PeakUnique | reverb/reverb_engine.py:209 | an attained upper bound of the magnitudes is the peak |
| Signal.Normalized | reverb/reverb_engine.py:209-212 | after normalising, the peak is at most 1; a buffer whose peak exceeded 1 is divided by it and peaks at exactly 1; any other buffer is unchanged |
| Signal.NormalizedSample | reverb/reverb_engine.py:209-212 | every sample is divided by the same factor: the peak when it exceeds 1, otherwise 1 |
| Signal.DividedPeak | reverb/reverb_engine.py:212 | a buffer divided by its own positive peak peaks at exactly 1 |
| Signal.DivByPeak | fushimi_plugin.py:39 | one sample divided by a peak that bounds it lies in [-1, 1], and at ±1 where the sample attains the peak |
| Signal.NormalizedKeepsSilence | fushimi_plugin.py:36-39 | a silent sample stays silent after normalising |
| Signal.NormalizedKeepsSilentTail | reverb/reverb_engine.py:209-212 | a silent stretch stays silent after normalising |
| Signal.NormalizedIdempotent | delay/test.py:42-43 | normalising twice gives the same buffer as normalising once |
| Signal.WetPeak | fushimi_plugin.py:172 | a normalised buffer scaled by the wet level peaks at no more than abs(wet) |
| Signal.ScaledSampleAt | fushimi_plugin.py:172 | a scaled sample's magnitude is at most abs(c) times a bound on the sample, with equality where the bound is attained |
| Signal.NormalizeInPlace | delay/test.py:42-43 | the buffer after in-place normalisation is the normalised old buffer |
| Gates.MaxTime | fushimi_plugin.py:14 | the maximum tap time: no tap is later, and some tap has exactly that time |
| Gates.MaxTimePermutation | delay/figma_delay.py:30 | reordering the taps does not change the maximum time |
| Gates.MaxTimeNonNegative | delay/test.py:13 | the maximum of non-negative tap times is non-negative |
| Gates.MaxDecay | reverb/reverb_engine.py:180 | the maximum decay: no gate decays longer, and some gate has exactly that decay |
| Gates.TapShift | fushimi_plugin.py:28 | a tap at a non-negative time starts at a sample index between 0 and fs·time/1000 |
| Gates.TapShiftMonotone | delay/test.py:31 | a later tap never starts at an earlier sample |
| Gates.Echo | fushimi_plugin.py:30-33 | one tap's slice-add `output[start:start+len(x)] += x*gain`, as a sample: zero outside the slice, the gained input sample inside it |
| Gates.DryAt | fushimi_plugin.py:20 | the dry term: the input times dry_mix inside the input's span, zero after it |
| Gates.TapSumStep | delay/figma_delay.py:43-58 | adding the next tap of the list adds exactly that tap's echo |
| Gates.DryBuffer | fushimi_plugin.py:17-20 | a fresh zero buffer of the total length, with the dry term added |
| Gates.AddEcho | fushimi_plugin.py:33 | the slice-add changes every sample by that tap's echo and nothing else |
| Figma.Kept | fushimi_plugin.py:119-120 | the layers whose name contains a keyword: every kept layer matches, and every matching layer is kept |
| Figma.ContainsIffOccurs | fushimi_plugin.py:120 | Python's `keyword in name` holds exactly when the keyword occurs in the name at some index |
| Figma.PositionToParams | fushimi_plugin.py:62-76 | a zero frame size divides by zero; otherwise the time lies in [0, x-range] and the gain in [min dB, max dB] |
| Figma.VolumeFallsDownward | fushimi_plugin.py:63-70 | lower on the frame means less volume |
| Figma.VolumeToDb | fushimi_plugin.py:72-76 | a volume of at most 0.1 % maps to the minimum gain, and any volume maps into [min dB, max dB] |
| Figma.VolumeToDbMonotone | reverb/figma_reverb.py:39-44 | more volume never gives a lower gain |
| Figma.TimeGrowsRightward | fushimi_plugin.py:62-66 | a gate further right never gets a shorter time |
| Figma.GainFallsDownward | fushimi_plugin.py:63-76 | a gate further down never gets a higher gain |
| Figma.BottomEdgeIsFloor | reverb/figma_reverb.py:35-40 | a gate at or below the bottom edge gets the minimum gain |
| Figma.GatesFromLayers | fushimi_plugin.py:119-129 | a successful load yields at most one gate per layer |
| Figma.AnyFailsAppend | fushimi_plugin.py:119-129 | a longer list of layers has a failing layer exactly when the shorter list has one or the added layer fails |
| Figma.GatesFromLayersSpec | fushimi_plugin.py:119-129 | the load fails exactly when some kept layer fails to map; on success it yields one gate per kept layer, in order, each the mapping of that layer's coordinates |
| Figma.GatesFromLayersErrSticks | reverb/figma_reverb.py:73-80 | once a prefix of the layers fails, the whole load fails with that error |
| FigmaReverb.FigmaToReverbParams | reverb/figma_reverb.py:3-49 | a zero frame size divides by zero; otherwise a reverb gate with decay in [0, 10000] ms and gain in [-60, 0] dB |
| FigmaReverb.ReverbGateMonotone | reverb/figma_reverb.py:26-44 | moving a gate right never shortens its decay, and moving it down never raises its gain |
| FigmaReverb.LoadReverbGatesFromFigma | reverb/figma_reverb.py:52-82 | the loop's result is the specified layer load with keywords Torii, Gate and Reverb |
| FigmaReverb.ReverbLoaderResult | reverb/figma_reverb.py:69-82 | the load fails exactly when some layer is kept and the frame has a zero size; otherwise it gives one well-formed reverb gate per kept layer, each mapped from that layer's coordinates |
| FigmaReverb.ReverbLoaderError | reverb/figma_reverb.py:79 | the only error the loader raises is the division by zero |
| ReverbEngine.Comb | reverb/reverb_engine.py:37-62 | the comb filter's recurrence holds: y[i] = x[i] for i < D, and y[i] = x[i] + g·y[i-D] after that |
| ReverbEngine.CursorStep | reverb/reverb_engine.py:60 | the circular buffer index advances by one and wraps to 0 at D |
| ReverbEngine.CombFilter | reverb/reverb_engine.py:37-62 | the circular-buffer loop computes exactly the comb recurrence |
| ReverbEngine.Allpass | reverb/reverb_engine.py:10-35 | the allpass recurrence holds: y[i] = -g·x[i] for i < D, and y[i] = -g·x[i] + x[i-D] + g·y[i-D] after that |
| ReverbEngine.AllpassTick | reverb/reverb_engine.py:24-30 | one loop step yields y[i] from the delayed slot and writes back exactly x[i] + g·y[i] |
| ReverbEngine.AllpassFilter | reverb/reverb_engine.py:10-35 | the circular-buffer loop computes exactly the allpass recurrence |
| ReverbEngine.CombBank | reverb/reverb_engine.py:71-77 | the sum of the comb outputs has the input's length |
| ReverbEngine.ParallelComb | reverb/reverb_engine.py:64-81 | the averaged comb bank has the input's length |
| ReverbEngine.CombBankSkipped | reverb/reverb_engine.py:74-77 | combs whose delay truncates to 0 samples are skipped, so a bank of only those is silent |
| ReverbEngine.AllCombsSkippedIsSilent | reverb/reverb_engine.py:64-81 | with every comb skipped, the parallel stage outputs silence |
| ReverbEngine.ParallelCombFilters | reverb/reverb_engine.py:64-81 | the loop computes the averaged comb bank |
| ReverbEngine.AddComb | reverb/reverb_engine.py:73-77 | one loop step adds the next comb (or skips it) |
| ReverbEngine.SerialAllpass | reverb/reverb_engine.py:83-97 | the allpass chain keeps the length |
| ReverbEngine.AllAllpassSkippedIsIdentity | reverb/reverb_engine.py:90-97 | with every allpass delay truncating to 0, the chain returns its input unchanged |
| ReverbEngine.SerialAllpassFilters | reverb/reverb_engine.py:83-97 | the loop computes the allpass chain |
| ReverbEngine.FeedbackGain | reverb/reverb_engine.py:138-141 | the RT60 gain divides by zero exactly when decay·fs is 0; otherwise it is clamped to at most 0.98, and positive when 10^x is |
| ReverbEngine.Schroeder | reverb/reverb_engine.py:117-158 | the reverb fails only through the feedback gain's division by zero; otherwise it keeps the input's length |
| ReverbEngine.SchroederReverb | reverb/reverb_engine.py:117-158 | the imperative pipeline (gain, combs, allpasses) computes the specified reverb |
| ReverbEngine.GateGain | reverb/reverb_engine.py:196-197 | the gate's linear gain clipped to [0, 1]: an in-range gain is kept, a gain of at least 1 gives 1, and a gain of at most 0 gives 0 |
| ReverbEngine.ReverbSum | reverb/reverb_engine.py:191-204 | the per-gate reverbs sum without error exactly when every gate's decay gives a usable feedback gain, and the sum has the input's length |
| ReverbEngine.MultiInstanceReverb | reverb/reverb_engine.py:161-214 | an empty gate list is the `max()` error and nothing else is; a result has length input + tail, peaks at most 1, and is silent after the input |
| ReverbEngine.MultiInstanceReverbPrefix | reverb/reverb_engine.py:183-212 | within the input's span, each sample of a successful result is the dry sample plus the gates' reverberations at that sample, divided by one common factor: the unnormalised peak when it exceeds 1, otherwise 1 |
| ReverbEngine.ReverbBuffer | reverb/reverb_engine.py:180-206 | a fresh buffer of length input + tail that holds the dry-plus-reverbs mix unless some gate fails |
| ReverbEngine.AddGateReverbs | reverb/reverb_engine.py:191-206 | the gate loop adds every gate's reverb to the dry buffer, and fails exactly when some gate's decay is unusable |
| ReverbEngine.ApplyMultiInstanceReverb | reverb/reverb_engine.py:161-214 | the imperative engine computes the specified multi-instance reverb, errors included |
| FushimiPlugin.HalfSecondTail | fushimi_plugin.py:15 | the tail for non-negative times is non-negative |
| FushimiPlugin.DelayMix | fushimi_plugin.py:17-34 | the unnormalised mix has the buffer's total length |
| FushimiPlugin.MultiTapDelay | fushimi_plugin.py:9-41 | it fails on an empty tap list (`max()` error), and otherwise only on an empty buffer; a result has length input + int(fs·max/1000 + fs/2) and peaks at most 1 |
| FushimiPlugin.HalfSecondTapsFit | fushimi_plugin.py:15-33 | every tap's slice starts at or after 0 and ends inside the output |
| FushimiPlugin.ShiftWithinTail | fushimi_plugin.py:15 | a tap's shift never exceeds the tail computed from a later time |
| FushimiPlugin.ApplyMultiTapDelay | fushimi_plugin.py:9-41 | the imperative delay computes the specified multi-tap delay, errors included |
| FushimiPlugin.DelayBuffer | fushimi_plugin.py:14-34 | a fresh buffer of length input + tail holding dry plus every tap's echo |
| FushimiPlugin.AddTaps | delay/figma_delay.py:43-58 | the tap loop turns the dry buffer into the full mix |
| FushimiPlugin.AddTap | delay/test.py:23-39 | one loop step adds the next tap's echo to every sample |
| FushimiPlugin.TapSumRemove | delay/test.py:23-39 | the sum of echoes is any one tap's echo plus the sum of the others |
| FushimiPlugin.TapSumPermutation | delay/figma_delay.py:43-58 | the sum of echoes does not depend on the order of the taps |
| FushimiPlugin.DelayMixPermutation | delay/figma_delay.py:35-58 | the unnormalised mix does not depend on tap order |
| FushimiPlugin.TapOrderIrrelevant | fushimi_plugin.py:9-41 | the whole delay, normalisation and errors included, does not depend on tap order |
| FushimiPlugin.TapSumBeforeEveryTap | fushimi_plugin.py:30-33 | before every tap's start, the echoes add nothing |
| FushimiPlugin.TapSumOfSilence | delay/test.py:39 | silent input gives silent echoes |
| FushimiPlugin.EchoesStartAtTheirTime | fushimi_plugin.py:20-39 | with dry_mix 0, the output is silent before the earliest tap |
| FushimiPlugin.SilenceInSilenceOut | fushimi_plugin.py:9-41 | silent input gives silent output |
| FushimiPlugin.DelayMixOfSilence | delay/figma_delay.py:35-58 | silent input gives a silent unnormalised mix |
| FushimiPlugin.FigmaToDelayParams | fushimi_plugin.py:44-81 | a zero frame size divides by zero; otherwise an echo with time in [0, 4000] ms and gain in [-60, 3.5] dB |
| FushimiPlugin.DelayGateMonotone | fushimi_plugin.py:62-76 | moving a gate right never shortens its time, and moving it down never raises its gain |
| FushimiPlugin.Processed | fushimi_plugin.py:143-172 | no gates: the input itself; gates of the other mode's shape: KeyError; a result peaks at no more than abs(wet_mix) |
| FushimiPlugin.FushimiInAiry.constructor | fushimi_plugin.py:90-101 | the given mode, no gates, dry and wet 1.0, tail factor 0.4 |
| FushimiPlugin.FushimiInAiry.SetMode | fushimi_plugin.py:103-108 | accepts exactly "delay" and "reverb"; anything else is a ValueError and leaves the mode alone; nothing else changes |
| FushimiPlugin.FushimiInAiry.LoadGatesFromFigma | fushimi_plugin.py:110-132 | the stored gates are the Torii/Gate layers mapped by the current mode's mapper; nothing else changes |
| FushimiPlugin.FushimiInAiry.SetGatesManual | fushimi_plugin.py:134-141 | replaces the gates and nothing else |
| FushimiPlugin.FushimiInAiry.ProcessAudio | fushimi_plugin.py:143-172 | the output is the specified processing for the current mode, gates and mix levels |
| FushimiPlugin.LoadedGatesFitMode | fushimi_plugin.py:117-132 | loaded gates fail exactly on a zero-size frame with some kept layer; otherwise one gate per kept layer, with non-negative times and of the current mode's shape |
| DelayV1.Confine | delay/DelayV1.py:82-83 | `max(lo, min(v, hi))` stays in [lo, hi], keeps in-range values and pins out-of-range ones to the nearer edge |
| DelayV1.GateToTap | delay/DelayV1.py:96-106 | a gate in the box maps to a time in [0, 4 beats] and a gain in [-60, 0] dB, with the left edge at time 0, the right at 4 beats, the top at 0 dB and the bottom at -60 dB |
| DelayV1.GateToTapMonotone | delay/DelayV1.py:99-105 | further right means a later tap, further down a quieter one |
| DelayV1.TapsOf | delay/DelayV1.py:95-106 | one tap per gate |
| DelayV1.BoxedGatesGiveTaps | delay/DelayV1.py:95-106 | gates inside the box give well-formed taps within 4 beats and [-60, 0] dB |
| DelayV1.CollectTaps | delay/DelayV1.py:95-106 | the loop collects exactly the mapped taps |
| DelayV1.KnobMix | delay/DelayV1.py:111-118 | a knob in its track gives a mix in [0, 1]: 1 at the top, 0 at the bottom |
| DelayV1.KnobMixMonotone | delay/DelayV1.py:116-118 | a lower knob never gives a larger mix |
| DelayV1.LatestTime | delay/DelayV1.py:128 | the largest tap time, or 0 with no taps; never below a tap's time |
| DelayV1.OneSecondTail | delay/DelayV1.py:129 | the tail is at least one second of samples |
| DelayV1.DspLength | delay/DelayV1.py:129-130 | the output is at least input + one second long |
| DelayV1.DspMix | delay/DelayV1.py:130-141 | the unnormalised mix has the buffer's length |
| DelayV1.Dsp | delay/DelayV1.py:127-148 | fails only on an empty buffer (no input and fs 0); a result has the specified length and peaks at most 1 |
| DelayV1.DspNormalizes | delay/DelayV1.py:143-147 | a mix peaking at most 1 is returned unchanged, a louder one peaks at exactly 1 |
| DelayV1.ApplyDsp | delay/DelayV1.py:127-148 | the imperative mixer computes the specified result |
| DelayV1.DspBuffer | delay/DelayV1.py:128-141 | a fresh buffer holding dry plus the taps that fit |
| DelayV1.NormalizeAboveSilence | delay/DelayV1.py:144-147 | the guarded division is the plain normaliser |
| DelayV1.AddFittingTaps | delay/DelayV1.py:136-141 | the tap loop turns the dry buffer into the mix |
| DelayV1.AddFittingTap | delay/DelayV1.py:137-141 | one loop step adds the next tap if it fits |
| DelayV1.FittingTapSumStep | delay/DelayV1.py:136-141 | adding the next tap adds its fitting echo |
| DelayV1.NoTapSkipped | delay/DelayV1.py:129-140 | with fs ≥ 1 every tap passes the fit test |
| DelayV1.AllFitSum | delay/DelayV1.py:136-141 | when every tap fits, the guarded sum is the sum of all wet echoes |
| DelayV1.DspUsesEveryTap | delay/DelayV1.py:127-141 | every output sample is the dry term plus every tap's wet echo |
| DelayV1.InitialGates | delay/DelayV1.py:51-57 | five gates, inside the box, on the bottom edge |
| DelayV1.InitialGatesAreSilent | delay/DelayV1.py:55-56 | the initial gates all map to -60 dB |
| DelayV1.ToriDelayPlugin.constructor | delay/DelayV1.py:10-79 | 44.1 kHz, the initial gates, both knobs at the top |
| DelayV1.ToriDelayPlugin.DragGate | delay/DelayV1.py:81-84 | the dragged gate moves to the confined pointer position; nothing else changes |
| DelayV1.ToriDelayPlugin.DragDry | delay/DelayV1.py:86-88 | the dry knob moves to the confined height; nothing else changes |
| DelayV1.ToriDelayPlugin.DragWet | delay/DelayV1.py:90-92 | the wet knob moves to the confined height; nothing else changes |
| DelayV1.ToriDelayPlugin.ProcessAndPlay | delay/DelayV1.py:94-125 | the rendered audio is the mix of the current gates and knobs; it always succeeds, is at least input + 1 s long and peaks at most 1 |
| PluginDemo.Toggled | fushimi_plugin_demo.py:151-160 | the toggled mode is "delay" or "reverb", and differs from a valid mode |
| PluginDemo.ToggleTwice | fushimi_plugin_demo.py:151-160 | toggling twice restores a valid mode |
| PluginDemo.VolumeAt | fushimi_plugin_demo.py:261-262 | volume in [0, 100] inside the box, 100 at the top, 0 at the bottom |
| PluginDemo.DemoReverbGate | fushimi_plugin_demo.py:256-265 | a reverb gate with decay in [0, 10000] ms inside the box and 0 at the left edge; a volume of at most 0.1 % gives -60 dB |
| PluginDemo.ReverbGatesOf | fushimi_plugin_demo.py:251-265 | one reverb gate per canvas gate |
| PluginDemo.BoxedGatesGiveReverbGates | fushimi_plugin_demo.py:251-265 | gates in the box give well-formed reverb gates |
| PluginDemo.Active | fushimi_plugin_demo.py:270 | exactly the gates louder than -50 dB |
| PluginDemo.ActiveAppend | fushimi_plugin_demo.py:270 | the filter distributes over concatenation |
| PluginDemo.InitialGatesInactive | fushimi_plugin_demo.py:85-92 | the initial gates at the bottom are all filtered out |
| PluginDemo.NoneActive | fushimi_plugin_demo.py:270-273 | gates all at or below -50 dB leave nothing active |
| PluginDemo.DemoReverbMix | fushimi_plugin_demo.py:285-287 | the dry-plus-wet mix has the reverb's length |
| PluginDemo.DemoReverb | fushimi_plugin_demo.py:248-294 | no active gate: the input itself; a result has length input + tail and peaks at most 1 |
| PluginDemo.DemoReverbOutcome | fushimi_plugin_demo.py:270-294 | with active gates, reverb mode fails exactly when a gate's decay is unusable or the buffer is empty; an unusable decay is a ZeroDivisionError |
| PluginDemo.LeftEdgeGateFails | fushimi_plugin_demo.py:256-282 | an active gate at the left edge makes reverb mode raise ZeroDivisionError |
| PluginDemo.FushimiInAiryGui.constructor | fushimi_plugin_demo.py:13-143 | delay mode, the initial gates, both knobs at the top |
| PluginDemo.FushimiInAiryGui.CheckModeSwitch | fushimi_plugin_demo.py:145-149 | a click inside the switch toggles the mode, any other click leaves it alone |
| PluginDemo.FushimiInAiryGui.ToggleMode | fushimi_plugin_demo.py:151-160 | the mode flips and nothing else changes |
| PluginDemo.FushimiInAiryGui.DragGate | fushimi_plugin_demo.py:162-165 | the dragged gate moves to the confined pointer position; nothing else changes |
| PluginDemo.FushimiInAiryGui.DragDry | fushimi_plugin_demo.py:167-169 | the dry knob moves to the confined height; nothing else changes |
| PluginDemo.FushimiInAiryGui.DragWet | fushimi_plugin_demo.py:171-173 | the wet knob moves to the confined height; nothing else changes |
| PluginDemo.FushimiInAiryGui.ApplyDelay | fushimi_plugin_demo.py:203-246 | the same result as DelayV1's mixer on the current gates |
| PluginDemo.FushimiInAiryGui.ApplyReverb | fushimi_plugin_demo.py:248-294 | the specified demo reverb on the current gates |
| PluginDemo.FushimiInAiryGui.ProcessAndPlay | fushimi_plugin_demo.py:175-201 | delay mode renders the delay and any other mode the reverb, with the knob-derived mix levels |
| PluginDemo.KeepActive | fushimi_plugin_demo.py:270 | the comprehension keeps exactly the active gates |
| PluginDemo.MapReverbGates | fushimi_plugin_demo.py:251-265 | the loop maps every gate |
| PluginDemo.MixReverb | fushimi_plugin_demo.py:285-287 | a fresh buffer holding the dry-plus-wet mix |

## Left out

- File and audio I/O is not modelled: librosa, soundfile, scipy, pygame
  playback, `json.load` and Tk rendering. The Figma JSON becomes a `layers`
  parameter; a missing `name`, `x` or `y` takes the default that
  `layer.get` gives. Sample rates come in as parameters.
- Printing is not modelled. The `__main__` blocks and module-level scripts
  are left out.
- `load_taps_from_figma` and the undefined `figma_to_audio`
  (`delay/figma_delay.py:12-23`) are not part of this model. Neither is the
  undefined `apply_delay` in `delay/test.py`.
- `apply_decay_envelope` (`reverb/reverb_engine.py:99-114`) is left out.
  Nothing calls it; its call is commented out.
- Floating point is not modelled: the model uses exact reals. Rounding, NaN,
  and numpy's `inf` from a float division by zero are left out; those
  divisions are modelled as the `ZeroDivision` error instead. `10**x` and
  `log10` are left abstract.
- FushimiPlugin.Processed: in reverb mode, a Figma layer at x <= 0 gets its
  decay from the `np.clip` at `reverb/figma_reverb.py:26`, a numpy float of
  0. Dividing a numpy float by zero gives `-inf` with a warning instead of
  raising, so Python computes a feedback gain of 0 and renders to the end.
  The model returns `Err(ZeroDivision)` for that gate instead. The demo's
  decay is a plain Python float, which does raise, so
  `PluginDemo.LeftEdgeGateFails` holds for the demo but not for the facade
  fed from Figma.
- Negative tap times or decays are not modelled, nor the Python slice
  semantics they would trigger. The engines require non-negative times.
- Gate dicts of mixed shapes are not modelled. A gate is either a delay or
  a reverb gate, and the facade's KeyError is raised before the engine runs.
- The canvas x-coordinates of the knobs (`DRY_X`, `WET_X`) are not modelled,
  nor the background image swap.
- DelayV1.ToriDelayPlugin.constructor: requires bpm > 0, which the source
  never checks.
- PluginDemo.FushimiInAiryGui.constructor: requires bpm > 0 for the same
  reason.
- DelayV1.DspUsesEveryTap: states each sample as the sum of wet-scaled
  echoes, not as the tap sum times `wet_mix`. The two differ only by
  distributivity.
- ReverbEngine.Schroeder: the contract states the length and the error
  cases; the sample values follow from `Comb`, `Allpass` and the function
  itself.
