# chippy — a Dafny model of the synthesizer and MML parser core

chippy makes chiptune-style audio. Its synthesizer has several parts:

- **Oscillators.** Sine, FM, triangle, sawtooth, pulse and noise generators. Each one builds a lookup table of one period (`int(framerate / frequency)` samples) and returns an endless generator over that table.
- **Compositor.** Averages several generators sample by sample.
- **ADSR envelope.** Builds a list of amplitude multipliers from attack, decay and release times in milliseconds.
- **PCM packing.** Scales samples by 32767, truncates them toward zero and packs them as signed 16-bit little-endian PCM. Two packers exist: `pack_pcm_data` and `wave_data`.
- **WAVE header.** Prefixes the 44-byte RIFF/WAVE header.
- **Save choice.** Decides which bytes `save_raw_pcm` and `save_wave` write.

The MML parser is a class. It holds tempo, octave, length, volume, the loaded lines, the header fields (title, composer, programmer, octave reversal), a current channel and five note queues.

- `_set_channel` selects the channel a line belongs to.
- `parse_line` appends one `(60 / tempo, frequency)` event per note letter.
- `_parse_header` reads the `#` header lines.

The model has eight modules:

- `Base`: Python's exceptions as an `Error` datatype, `Result`/`Option`, and truncating `int()` as `Trunc`.
- `Bytes`: little-endian integers and 16-bit two's-complement shorts.
- `Streams`: a generator as a `Source` value, meaning a periodic table, a finite iterator or a composite. It has an index semantics `At`, a `Cursor`/`Step` state machine, and the class `WaveStream`, whose `Next` pulls one value.
- `Oscillators`: the period computation and the lookup tables.
- `Envelope`: the ADSR envelope. The method `AdsrEnvelope` builds it with one loop per segment, and is proved equal to the specification function `Adsr`.
- `Pcm`: the two packers as methods over a `WaveStream`. They are proved equal to the functions `PackedPcm` and `WaveBytes`.
- `Wave`: the header, its decoder, and the save choice.
- `Mml`: the class `MMLParser`. Its methods are proved equal to pure functions over a `Parser` snapshot of all its fields.

Python floats are modelled as exact reals.

## Model

| member | source | states |
|---|---|---|
| Base.Trunc | chippy/synthesizer.py:96 | `int()` of a float truncates toward zero: the result is within one unit of `x`, on the zero side |
| Base.TruncMonotone | chippy/synthesizer.py:96-100 | Truncation preserves order |
| Base.TruncOfSum | chippy/synthesizer.py:94-100 | Truncating a sum of two non-negative reals gives the sum of the truncations, or one more |
| Bytes.FromLEOfLE | chippy/synthesizer.py:174-186 | Reading back the little-endian bytes of a value gives the value |
| Bytes.LEOfFromLE | chippy/synthesizer.py:174-186 | Every byte string is the little-endian encoding of its own value |
| Bytes.ShortRoundTrip | chippy/synthesizer.py:128 | A 16-bit signed value read back from the two bytes `array('h')` writes is the same value |
| Streams.At | chippy/synthesizer.py:51 | Defines what a generator body computes at counter `i`. A table stream gives `table[i % period]`, ZeroDivisionError for period 0, or IndexError past the table. A finite iterator is exhausted past its end. A composite is the mean of its inputs' values, or the first input's stop, and is empty for no inputs |
| Streams.Step | chippy/synthesizer.py:51 | Defines one `next()`: a finished generator gives StopIteration; otherwise it yields `At` at the current counter and advances, or becomes finished when that raises or runs out |
| Streams.CycleAt | chippy/synthesizer.py:51 | Pull `i` of a table generator is `table[i % period]`, and the stream repeats with period `period` |
| Streams.CycleWithoutPeriodFails | chippy/synthesizer.py:51 | With period 0, the generator body raises ZeroDivisionError at every counter value, because `i % 0` does. With a negative period, it raises IndexError. Through `Step`, only the first `next()` raises; the generator is then finished and every later pull is StopIteration |
| Streams.CompositeMean | chippy/synthesizer.py:91 | When every input yields a value at index `i`, the composite yields their sum divided by the input count |
| Streams.CompositeStops | chippy/synthesizer.py:91 | If any input ends or raises at index `i`, the composite yields no value there |
| Streams.CompositeLength | chippy/synthesizer.py:85-91 | A composite of finite inputs yields a value at `i` iff `i` is below the shortest input's length |
| Streams.CompositePeriodic | chippy/synthesizer.py:91 | If every input repeats with period `p`, so does the composite |
| Streams.ShortestIsLength | chippy/synthesizer.py:91 | `Shortest` is the length of one input, and no input is shorter |
| Streams.FirstStopIsStop | chippy/synthesizer.py:91 | When any pull stops, the composite's outcome is one of those stopping pulls |
| Streams.SumOfValues | chippy/synthesizer.py:91 | The composite's sum over value pulls is the sum of the values |
| Streams.CyclePulls | chippy/synthesizer.py:51 | `n` successive pulls from a table generator at position `start` give `table[(start + i) % period]` |
| Streams.WaveStream.constructor | chippy/synthesizer.py:51 | A fresh generator object is at position 0 and not closed |
| Streams.WaveStream.Next | chippy/synthesizer.py:51 | `next()` yields the pull at the current position and advances it. After an exception or StopIteration, the generator stays exhausted |
| Oscillators.Period | chippy/synthesizer.py:47 | The period is `int(framerate / frequency)`. It raises ZeroDivisionError iff the frequency is 0. It is non-negative for a positive frequency, and 0 when the frequency exceeds the framerate |
| Oscillators.PeriodPositive | chippy/synthesizer.py:47 | A positive period needs a nonzero framerate |
| Oscillators.SawtoothTable | chippy/synthesizer.py:66-67 | The sawtooth table has `period` entries |
| Oscillators.SawtoothGenerator | chippy/synthesizer.py:63-68 | The result is a table stream with the period `int(framerate / frequency)`, or ZeroDivisionError iff the frequency is 0 |
| Oscillators.SawtoothRamp | chippy/synthesizer.py:63-68 | The sawtooth starts at `-amplitude`, increases strictly over one period and stays in `[-amplitude, amplitude)` |
| Oscillators.SawtoothEntry | chippy/synthesizer.py:66-67 | Entry `i` is `amplitude * (2 * phase - 1)` with phase `frequency * i / framerate`, and the phase lies in `[0, 1)` |
| Oscillators.SawtoothIncreasing | chippy/synthesizer.py:66-67 | A later sawtooth entry is strictly greater |
| Oscillators.PulseTable | chippy/synthesizer.py:74-75 | The pulse table has `period` entries |
| Oscillators.PulseGenerator | chippy/synthesizer.py:70-76 | The result is a table stream with the period `int(framerate / frequency)`, or ZeroDivisionError iff the frequency is 0 |
| Oscillators.PulseShape | chippy/synthesizer.py:70-76 | The table is `k` copies of `+amplitude` followed by `period - k` copies of `-amplitude`, where `k` is `int(duty_cycle * period / 100)` clamped to `[0, period]` |
| Oscillators.PulseDutyWithinPeriod | chippy/synthesizer.py:73 | For a duty cycle between 0 and 100, `int(duty_cycle * period / 100)` lies in `[0, period]` |
| Oscillators.TriangleTableAsWritten | chippy/synthesizer.py:56-60 | The triangle table as written, including its `- 1` and `+ 0.02`, has `period` entries |
| Oscillators.TriangleAsWrittenUndershoots | chippy/synthesizer.py:58-59 | At amplitude 1 and any period below 100, the first entry of the table as written is below -1 |
| Oscillators.TriangleTable | chippy/synthesizer.py:56-60 | The corrected triangle table has `period` entries. It drops both the `- 1` inside the bracket, which lowers every entry by `amplitude / half_period`, and the `+ 0.02` that only partly offsets it |
| Oscillators.TriangleTableBounded | chippy/synthesizer.py:58-59 | The corrected triangle table starts at `-amplitude` and stays within `[-amplitude, amplitude]` |
| Oscillators.TriangleEntry | chippy/synthesizer.py:58-59 | Corrected entry `i` is the triangle value at distance `abs(i - period/2)` from the peak, and that distance is at most `period/2` |
| Oscillators.TriangleGeneratorAsWritten | chippy/synthesizer.py:53-61 | `triangle_generator` as written is a table stream with the period `int(framerate / frequency)`, or ZeroDivisionError iff the frequency is 0 |
| Oscillators.TriangleGenerator | chippy/synthesizer.py:53-61 | The corrected triangle generator has the same period and the same error case |
| Oscillators.SineGenerator | chippy/synthesizer.py:46-51 | The sine generator is a table stream with the period `int(framerate / frequency)`, or ZeroDivisionError iff the frequency is 0 |
| Oscillators.FmGenerator | chippy/synthesizer.py:26-34 | The FM generator is a table stream with the period `int(framerate / carrier)`, or ZeroDivisionError iff the carrier is 0 |
| Oscillators.NoiseGenerator | chippy/synthesizer.py:78-82 | The noise generator is a table stream with the period `int(framerate / frequency)`, or ZeroDivisionError iff the frequency is 0 |
| Oscillators.GeneratedStreamPeriodic | chippy/synthesizer.py:47-51 | Any generator with a positive period computes `table[i % period]` at counter `i`, and repeats with that period. When the frequency exceeds the framerate, the period is 0 and the body raises ZeroDivisionError, so the first `next()` raises it and the generator is finished |
| Envelope.Rise | chippy/synthesizer.py:105-106 | The attack segment has one entry per attack sample, and none for a non-positive count |
| Envelope.Fall | chippy/synthesizer.py:108-109 | A falling segment has one entry per sample of its count |
| Envelope.Hold | chippy/synthesizer.py:111-112 | The sustain segment has one entry per sustain sample |
| Envelope.SegmentCounts | chippy/synthesizer.py:94-101 | Defines the four counts `int(byte_scale * t)` for attack, decay, the sustain remainder `length - (attack + decay + release)` and release, with `byte_scale = framerate / 1000` |
| Envelope.Adsr | chippy/synthesizer.py:93-117 | Defines `adsr_envelope`: ZeroDivisionError when the decay count is 0, then when the release count is 0; otherwise the attack, decay, sustain and release segments in order |
| Envelope.Shape | chippy/synthesizer.py:103-117 | The envelope's length is the sum of the four segment counts |
| Envelope.AdsrEnvelope | chippy/synthesizer.py:93-117 | `adsr_envelope` returns exactly `Adsr`: the four segments in order, or ZeroDivisionError when the decay or release count is 0 |
| Envelope.AppendRise | chippy/synthesizer.py:105-106 | The attack loop appends `i / attack_bytes` for `i` in `1..attack_bytes` |
| Envelope.AppendFall | chippy/synthesizer.py:108-109 | The decay and release loops append `start - i * step` for `i` in `1..n` |
| Envelope.AppendHold | chippy/synthesizer.py:111-112 | The sustain loop appends `sustain_level` once per sustain sample |
| Envelope.AdsrLength | chippy/synthesizer.py:96-101 | The envelope fails with ZeroDivisionError iff the decay or release count is 0. A zero attack count adds nothing and raises nothing. Otherwise, the length is the sum of the four counts |
| Envelope.ShortLengthEmptySustain | chippy/synthesizer.py:94-99 | When `length` is shorter than attack + decay + release, the sustain segment is empty and nothing is raised on its account |
| Envelope.RiseBetween | chippy/synthesizer.py:105-106 | The attack rises within `(0, 1]` and ends at exactly 1 |
| Envelope.FallBetween | chippy/synthesizer.py:108-109 | A fall of `drop` over `n` steps stays within `[start - drop, start]` and ends at exactly `start - drop` |
| Envelope.ShapeEndpoints | chippy/synthesizer.py:103-117 | When the decay and the release have at least one sample each: a non-empty attack ends at 1, the decay ends at `sustain_level`, the sustain (empty or not) holds `sustain_level` throughout, and the release ends at 0. An empty attack and an empty sustain are covered |
| Envelope.AdsrEndpoints | chippy/synthesizer.py:93-117 | When the decay and release spans truncate to at least one sample each, `adsr_envelope` succeeds and its envelope has the endpoints above, whatever the attack and sustain counts |
| Envelope.ShapeBounded | chippy/synthesizer.py:103-117 | For a sustain level in `[0, 1]`, every multiplier lies in `[0, 1]` |
| Envelope.AdsrBounded | chippy/synthesizer.py:93-117 | For a sustain level in `[0, 1]`, every multiplier of a successful envelope lies in `[0, 1]` |
| Envelope.AdsrExample | chippy/synthesizer.py:93-117 | At 44100 Hz with 50/100/300 ms over 1000 ms and sustain 0.5, there are 44100 multipliers. The first is 1/2205, the decay ends at 0.5 and the release at 0 |
| Envelope.AdsrLengthBounds | chippy/synthesizer.py:94-100 | For non-negative times that fit in `length`, the envelope has between `int(byte_scale * length) - 3` and `int(byte_scale * length)` entries |
| Envelope.TruncOfFour | chippy/synthesizer.py:96-100 | Four separate truncations sum to between `int(total) - 3` and `int(total)` |
| Envelope.AdsrShortfall | chippy/synthesizer.py:94-100 | At 1500 Hz with 1/1/1 ms over 4 ms, the envelope as written has 4 entries where `int(1.5 * 4) = 6` were meant |
| Envelope.AdsrFilledLength | chippy/synthesizer.py:94-100 | With the sustain count taken as the remainder, the envelope has exactly `int(byte_scale * length)` entries. It fails exactly when the original does |
| Pcm.Quantize | chippy/synthesizer.py:127 | Defines one sample as `int(32767 * v)`, truncated toward zero |
| Pcm.SampleCount | chippy/synthesizer.py:125 | Defines the sample count as `int(framerate * length)` |
| Pcm.PackedPcm | chippy/synthesizer.py:121-128 | Defines `pack_pcm_data`: ValueError when the count is negative (as `islice` raises); otherwise the packed bytes of `Pack`, or its exception, with the stream's state afterwards |
| Pcm.WaveBytes | chippy/synthesizer.py:130-137 | Defines `wave_data`: draw `int(framerate * length)` values with `next()`, then range-check them all, then pack, then add the header when `riff_header` is set |
| Pcm.PcmBytes | chippy/synthesizer.py:128 | Packing gives two bytes per sample |
| Pcm.PcmRoundTrip | chippy/synthesizer.py:128 | Unpacking the packed bytes gives back the samples |
| Pcm.QuantizeInRange | chippy/synthesizer.py:127 | `int(32767 * v)` of a value in `[-1, 1]` is a 16-bit short, truncated toward zero, with the sign of `v` |
| Pcm.Pack | chippy/synthesizer.py:126-128 | What `islice` feeds to `array('h')` is at most `n` samples, each a 16-bit short |
| Pcm.PackPcmData | chippy/synthesizer.py:121-128 | `pack_pcm_data` returns `PackedPcm` and leaves the stream where `PackedPcm` says |
| Pcm.PackSamples | chippy/synthesizer.py:126-128 | The pulling loop returns `Pack` and leaves the stream in `Pack`'s state |
| Pcm.Take | chippy/synthesizer.py:132-133 | A successful `next()` list comprehension has exactly `n` values |
| Pcm.WaveData | chippy/synthesizer.py:130-137 | `wave_data` returns `WaveBytes`: the values drawn, range-checked, packed, and given a header when `riff_header` is set |
| Pcm.ShortArray | chippy/synthesizer.py:132-133 | `array('h', ...)` accepts exactly the quantized values when all of them fit, and raises OverflowError otherwise |
| Pcm.ValuesOf | chippy/synthesizer.py:132-133 | The values of a run of successful pulls, in order |
| Pcm.TakeOfValues | chippy/synthesizer.py:132-133 | When `n` pulls all succeed, the comprehension yields their values |
| Pcm.PackOfValues | chippy/synthesizer.py:126-128 | When `n` pulls all succeed and fit, `pack_pcm_data` packs exactly what `wave_data` draws, and leaves the stream in the same state |
| Pcm.PackersAgree | chippy/synthesizer.py:121-137 | Under those conditions, `wave_data(..., False)` equals `pack_pcm_data`, and `wave_data(..., True)` is `add_wave_header` applied to it |
| Pcm.PackCycle | chippy/synthesizer.py:121-128 | A table stream in `[-1, 1]` packs to exactly `int(framerate * length)` samples, where sample `k` is the quantized entry at `(start + k) % period` |
| Pcm.PackFinite | chippy/synthesizer.py:126-128 | Packing a finite iterator that fits gives all its remaining values, quantized |
| Pcm.TakeFinite | chippy/synthesizer.py:132-133 | Drawing more values than a finite iterator holds raises StopIteration |
| Pcm.ShortStream | chippy/synthesizer.py:121-137 | On a stream shorter than `int(framerate * length)`, `pack_pcm_data` packs the samples there are, while `wave_data` raises StopIteration |
| Pcm.TriangleAsWrittenOverflows | chippy/synthesizer.py:58-59 | At 44100 Hz and 882 Hz, the triangle as written makes both packers raise OverflowError |
| Pcm.TrianglePcmFits | chippy/synthesizer.py:121-128 | The corrected triangle with amplitude in `[0, 1]` packs to the full sample count, and its first sample is `int(-32767 * amplitude)` |
| Wave.U32 | chippy/synthesizer.py:174 | The `I` field is four bytes |
| Wave.U16 | chippy/synthesizer.py:174 | The `H` field is two bytes |
| Wave.AddWaveHeader | chippy/synthesizer.py:167-187 | `struct.pack` succeeds iff `len + 36`, the framerate and the byte rate fit in 32 bits, and raises struct.error otherwise. The result is 44 header bytes starting with `RIFF`, followed by the PCM unchanged |
| Wave.Header | chippy/synthesizer.py:174-186 | The header is 44 bytes and starts with `RIFF` |
| Wave.RiffPart | chippy/synthesizer.py:175-177 | The RIFF chunk descriptor is 16 bytes and starts with `RIFF` |
| Wave.FmtPart | chippy/synthesizer.py:178-181 | The `fmt ` sub-chunk's first fields take 12 bytes |
| Wave.FormatPart | chippy/synthesizer.py:182-184 | The byte-rate, block-align and bits fields take 8 bytes |
| Wave.DataPart | chippy/synthesizer.py:185-186 | The `data` sub-chunk header takes 8 bytes |
| Wave.HeaderRoundTrip | chippy/synthesizer.py:174-187 | Decoding the header gives back every field: RIFF size `len + 36`, format 1, one channel, the framerate, byte rate `framerate * 2`, block align 2, 16 bits, data size `len`. It also gives back the PCM |
| Wave.HeaderLayout | chippy/synthesizer.py:174-187 | Each header field sits at its fixed offset, and the PCM starts at byte 44 |
| Wave.HeaderParts | chippy/synthesizer.py:174-187 | The four parts of the header sit at offsets 0, 16, 28 and 36 |
| Wave.RiffFields | chippy/synthesizer.py:175-177 | The RIFF chunk holds `RIFF`, the size `len + 36` and `WAVEfmt ` |
| Wave.FmtFields | chippy/synthesizer.py:178-181 | The `fmt ` fields hold 16, 1, one channel and the framerate |
| Wave.FormatFields | chippy/synthesizer.py:182-184 | The byte rate is `framerate * 2`, the block align 2 and the bits 16 |
| Wave.DataFields | chippy/synthesizer.py:185-186 | The data sub-chunk holds `data` and the PCM length |
| Wave.HeaderExample | chippy/synthesizer.py:174-187 | 100 bytes at 44100 Hz give 144 bytes, with RIFF size 136, data size 100 and framerate 44100 |
| Wave.RawSaveBytes | chippy/synthesizer.py:201-204 | Defines what `save_raw_pcm` writes: everything after byte 44 when the data starts with `RIFF`, else the data |
| Wave.WaveSaveBytes | chippy/synthesizer.py:214-217 | Defines what `save_wave` writes: the data when it starts with `RIFF`, else `add_wave_header` of it |
| Wave.RawSaveOfWave | chippy/synthesizer.py:201-204 | `save_raw_pcm` of a headed WAVE writes back exactly the PCM |
| Wave.WaveSaveIdempotent | chippy/synthesizer.py:214-217 | `save_wave` writes bytes that start with `RIFF`, and saving them again writes the same bytes |
| Wave.RawSaveStrips | chippy/synthesizer.py:201-204 | Data starting with `RIFF` loses its first 44 bytes. Any other data is written unchanged |
| Wave.RiffLookalikePcm | chippy/synthesizer.py:201-217 | PCM whose first two samples are 18770 and 17990 spells `RIFF`, so `save_wave` writes it without a header and `save_raw_pcm` drops 44 bytes of it |
| Mml.WithQueue | chippy/mmlparser.py:72 | Replacing one queue changes that queue only: the other queues, the channel, the settings and the header fields stay as they were |
| Mml.QueueRoundTrip | chippy/mmlparser.py:72 | Writing back a queue as read leaves the parser unchanged |
| Mml.StripLeft | chippy/mmlparser.py:63 | The result is a suffix of the line that does not start with whitespace, and every removed character is whitespace |
| Mml.StripRight | chippy/mmlparser.py:63 | The result is a prefix of the line that does not end with whitespace, every removed character is whitespace, and it keeps a non-blank first character |
| Mml.Strip | chippy/mmlparser.py:63 | `line.strip()` is a slice of the line with no whitespace at either end, and everything outside the slice is whitespace, where whitespace is what `str.isspace()` accepts |
| Mml.StripSeparator | chippy/mmlparser.py:63 | A leading `\x1c` is stripped as whitespace, so `"\x1cA cde"` still selects channel A |
| Mml.StripAll | chippy/mmlparser.py:62-63 | One stripped line per line read |
| Mml.SelectChannel | chippy/mmlparser.py:43-58 | Defines `_set_channel`: a `#` line keeps the channel; the prefixes `A ` to `E ` select their channel, tested in that order; any other line selects A |
| Mml.SelectByPrefix | chippy/mmlparser.py:47-56 | A line starting with a channel letter and a space selects that channel, whatever was selected before |
| Mml.SelectChannelCases | chippy/mmlparser.py:43-58 | A line starting with `#` keeps the current channel, and only such a line, with none selected before, leaves no channel selected. Any other line without a channel prefix selects channel A |
| Mml.SelectChannelExamples | chippy/mmlparser.py:43-58 | `"F gab"` and `"A"` select A, `"C cde"` selects C, and `"#TITLE x"` keeps the current channel |
| Mml.IsNote | chippy/mmlparser.py:69 | Defines the note test: the upper-cased character is a key of the note table |
| Mml.NoteEvents | chippy/mmlparser.py:68-72 | Defines the events of a line: one `(60 / tempo, frequency)` per note character, in line order |
| Mml.ParseLineResult | chippy/mmlparser.py:66-72 | Defines `parse_line`: select the channel; if the line has a note, raise ZeroDivisionError for tempo 0, then AttributeError when no channel is selected; otherwise append the line's events to the selected queue |
| Mml.NoteEventsEmpty | chippy/mmlparser.py:68-72 | A line without note letters yields no events |
| Mml.NoteEventsConcat | chippy/mmlparser.py:68-72 | The events of two joined lines are the events of the first followed by those of the second |
| Mml.NoteLetters | chippy/mmlparser.py:13-19 | A character is a note iff it is one of `ABCDEFGR` in either case, since `C#` and the other sharps can never match one character |
| Mml.SingleNote | chippy/mmlparser.py:68-72 | A one-character line yields that character's note event, if any |
| Mml.NoteExamples | chippy/mmlparser.py:69-72 | `a` yields `(60 / tempo, 440.0)` and `r` yields `(60 / tempo, 0.1)` |
| Mml.SharpIsNotRead | chippy/mmlparser.py:68-72 | `"C#"` yields only the C, at 261.63 Hz |
| Mml.PrefixLetterIsANote | chippy/mmlparser.py:66-72 | The channel letter of `"B cde"` is itself queued as a B, before C, D and E |
| Mml.ParseLineErrors | chippy/mmlparser.py:66-72 | `parse_line` raises iff the line has a note letter and either the tempo is 0 or no channel is selected. A zero tempo raises ZeroDivisionError before anything else. A `#` line with a note letter before any channel is chosen raises AttributeError |
| Mml.ParseLineEffect | chippy/mmlparser.py:66-72 | After `parse_line`, the channel is the one `_set_channel` chose, and the settings and header fields are unchanged. The selected queue grows by the line's events, and every other queue is unchanged |
| Mml.ParseLineWithoutNotes | chippy/mmlparser.py:66-69 | A line without note letters only selects the channel |
| Mml.ApplyHeaderLine | chippy/mmlparser.py:29-41 | Defines one iteration of `_parse_header`: the first matching keyword of `#INCLUDE`, `#TITLE`, `#COMPOSER`, `#PROGRAMER`, `#PROGRAMMER`, `#OCTAVE-REV` decides the field written |
| Mml.ScanHeader | chippy/mmlparser.py:27-41 | Defines `_parse_header` as applying each line in order |
| Mml.HeaderLineCases | chippy/mmlparser.py:27-41 | Each header keyword reaches its own branch: `#TITLE` sets the title from offset 7, `#COMPOSER` the composer from offset 10, either programmer spelling the programmer from offset 11, and `#OCTAVE-REV` turns on octave reversal |
| Mml.ScanHeaderConcat | chippy/mmlparser.py:28-41 | Scanning two runs of lines is scanning the first and then the second |
| Mml.ScanHeaderFrame | chippy/mmlparser.py:27-41 | The header scan leaves the settings, the channel and every queue unchanged |
| Mml.ReverseOctaveIff | chippy/mmlparser.py:40-41 | Octave reversal is on after the scan iff it was on before or some line starts with `#OCTAVE-REV` |
| Mml.LastTitleWins | chippy/mmlparser.py:32-33 | The title comes from the last `#TITLE` line |
| Mml.LastComposerWins | chippy/mmlparser.py:34-35 | The composer comes from the last `#COMPOSER` line |
| Mml.LastProgrammerWins | chippy/mmlparser.py:36-39 | The programmer comes from the last line in either spelling, cut at offset 11 |
| Mml.HeaderOffsets | chippy/mmlparser.py:32-35 | `#TITLE Song` sets the title to `Song`, and `#COMPOSER Ann` sets the composer to `Ann` |
| Mml.ProgrammerOffsets | chippy/mmlparser.py:36-39 | `#PROGRAMER Bob` gives `Bob`, but `#PROGRAMMER Bob` gives ` Bob`, because both spellings cut at offset 11 |
| Mml.HeaderIgnores | chippy/mmlparser.py:29-31 | `#INCLUDE` lines and lines that do not start with `#` change nothing |
| Mml.MMLParser.constructor | chippy/mmlparser.py:3-25 | A new parser holds the given settings, no header fields, octave reversal off, no lines, no channel and five empty queues |
| Mml.MMLParser.SetChannel | chippy/mmlparser.py:43-58 | `_set_channel` changes only the current channel, to `SelectChannel` of the line |
| Mml.MMLParser.ParseLine | chippy/mmlparser.py:66-72 | `parse_line` returns the exception and the new state that `ParseLineResult` gives |
| Mml.MMLParser.Append | chippy/mmlparser.py:72 | Appending to the current channel's list grows that queue by one event and changes nothing else |
| Mml.MMLParser.ParseHeader | chippy/mmlparser.py:27-41 | `_parse_header` leaves the parser in `ScanHeader` of its lines |
| Mml.MMLParser.LoadLines | chippy/mmlparser.py:60-64 | `load_file` appends the stripped lines, then scans the whole line list as a header |
| Mml.MMLParser.AppendLines | chippy/mmlparser.py:62-63 | The read loop appends one stripped line per line and changes nothing else |
| Mml.StripLines | chippy/mmlparser.py:62-63 | The read loop strips each line, in order: the result is `StripAll(lines)` |

## Left out

- The file system and the console are not modelled. `save_raw_pcm` and `save_wave` are modelled as the byte string they would write (`RawSaveBytes`, `WaveSaveBytes`), without `open`, `write` or `print`. `load_file` is `LoadLines`, which takes the lines the file would yield.
- `fm_compositor` is not modelled. It draws one value of another generator per table entry via `next()` and feeds it to `sin`. The model has no trigonometry to say anything about it beyond what `FmGenerator` already shows for table generators.
- The `*_pcm` wrappers (`fm_pcm`, `sine_pcm`, and the rest) are one generator call followed by `pack_pcm_data`. They are covered by those members, not as separate members.
- `sin`, `pi` and `random.uniform` are parameters of `SineGenerator`, `FmGenerator` and `NoiseGenerator`. Nothing is proved about the waveform values they give.
- Floating point is modelled as exact real arithmetic. Rounding of `framerate / frequency`, of the envelope steps and of `32767 * v` is not modelled, and neither is `int()` of an infinity or NaN.
- `array('h').tobytes()` uses the host's byte order. The model fixes it as little-endian.
- The framerate is an integer. The header packs it as an unsigned 32-bit field.
- The `digitar_generator` is commented out in the source, so it is not modelled.
- `lab.py` and `setup.py` are not part of this model.
- `composite_generator` over the same generator object passed twice is not modelled. `Mean` reads each input by index, so the sharing of one generator's position between two `zip` slots is not captured.
- The parser's `notes` dictionary is a module constant `Notes`, because nothing writes to it.
- `current_channel` holds a reference to one of the five lists. The model holds the channel's name. An append through the alias is an append to that named queue.
- `str.upper()` is modelled for ASCII letters only. That is exact for the note test: no other character upper-cases to a single letter among the note keys.
- Mml.StripAll: states only that there is one output line per input line. The per-line content is given by `Strip`.
- The times of `adsr_envelope` are in milliseconds (`byte_scale = framerate / 1000`), and the model follows that. The envelope's length is the sum of four separately truncated counts, not `int(byte_scale * length)`. A `length` shorter than attack + decay + release gives an empty sustain and raises nothing.

## Findings

| source | as written | input that shows it | evidently intended | confidence | as-written member | corrected member |
|---|---|---|---|---|---|---|
| chippy/synthesizer.py:58-59 | Each triangle entry carries a `- 1` inside the bracket, which lowers it by `amplitude / half_period`. The `+ 0.02` only partly offsets that, so the first entry is `-amplitude - amplitude / half_period + 0.02` | framerate 44100, frequency 882 Hz, amplitude 1: the period is 50 and the first entry is -1.02. `int(32767 * -1.02)` is -33422, so `array('h')` raises OverflowError on the first sample | a triangle within `[-amplitude, amplitude]`, without the `- 1` or the `+ 0.02`, which packs without overflow | high, not executed | Pcm.TriangleAsWrittenOverflows | Pcm.TrianglePcmFits |
| chippy/synthesizer.py:94-100 | The four segment counts are truncated separately, and their sum is the envelope's length | framerate 1500, attack, decay and release 1 ms each, length 4 ms: every count is 1, giving 4 entries | `int(byte_scale * length)` entries, which is 6, with the sustain taking the rest ("sustain is what's left") | medium, not executed | Envelope.AdsrShortfall | Envelope.AdsrFilledLength |
