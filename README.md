# LSTM music generation: the symbolic token pipeline

This project models the part of the LSTM music generator that is pure token
handling around the neural network, and proves properties of that model.

- **Tokenisation** (`get_notes_from_midis`).
  - A parsed note becomes its pitch string.
  - A chord becomes its normal-order integers in decimal, joined by `.`.
  - Every other element is skipped.
  - The corpus is a list of files. A file whose parse raised contributes nothing.
- **Training pairs** (`prepare_sequences`).
  - The vocabulary is the sorted set of tokens.
  - `note_to_int` numbers the vocabulary entries.
  - Every window of `sequence_length` tokens that has a token after it becomes a pair. The window's indices are divided by `n_vocab`, and the next token is one-hot encoded over `n_vocab` classes.
- **Generation** (`generate_music`).
  - The seed pattern is either the caller's `start_with` or the indices of `sequence_length` consecutive vocabulary entries from a random start.
  - Each of `num_notes` steps normalises the pattern, asks the predictor for scores, and takes the first largest score (`np.argmax`). It looks that index up in `int_to_note`, then slides it into the pattern.
- **Decoding** (`create_midi`).
  - A token is a chord if it contains `.` or is all digits. Its `.`-separated parts are parsed with `int()`.
  - Any other token is a note named by the token.
  - Every note carries a Piano tag, and element k sits at offset 0.5·k.

Files:

- `wrappers.dfy`: `Option` and `Result`.
- `text.dfy` (module `Text`): the Python string operations the token format relies on:
  - `str(n)` and `int()`;
  - `str.isdigit`, `str.split` and `str.join`;
  - the code-point order `sorted` uses on strings.
- `preprocess.dfy` (module `Preprocess`): `Scripts/preprocess.py`.
- `generate_music.dfy` (module `GenerateMusic`): `Scripts/generate_music.py`.

External parts are parameters:

- The trained network is a function from a normalised pattern to a score vector.
- The random start is a parameter. Its precondition is the range `np.random.randint` draws from.
- The already-parsed MIDI files are a list of element lists.

Python integers are unbounded, as in Dafny. Division by `n_vocab` is exact `real` division. Offsets are counted in half beats: offset k stands for 0.5·k.

Behaviour of the code worth knowing:

- **The random seed.** The random seed is the run of vocabulary indices `start … start+S−1`, not a slice of the training stream. The code looks up the vocabulary entries `start .. start + sequence_length - 1`, and since `note_to_int[pitchnames[i]] == i` that is just the run `start, start+1, …` (`GenerateMusic.SeedIsConsecutiveIndices`).
- **Validation.** `generate_music` validates neither `start_with` nor the length of the score vector:
  - `start_with` is used as given.
  - A score vector shorter than the vocabulary is accepted.
  - A longer one fails only when its first maximum lies beyond the vocabulary, as a `KeyError` at the lookup (`GenerateMusic.LongScoresFailLookup`).
- **An empty token stream.** `prepare_sequences` on an empty `notes` raises. `n_vocab` is then 0, and Keras's `to_categorical` treats zero classes as "infer the count from the largest label", which an empty label list does not have. The model returns the error `NoClasses` there (`Preprocess.PrepareSequences`). This relies on the Keras library code, which is not part of this model; `Preprocess.CorpusTokensEmpty` says when the corpus yields no token at all.

## Model

| member | source | states |
|---|---|---|
| Text.NatToString | Scripts/preprocess.py:28 | `str(n)` of a natural is a non-empty string of decimal digits whose value is n, with no leading zero unless it is `0` itself |
| Text.IsDigitString | Scripts/generate_music.py:55 | `str.isdigit` holds only of a non-empty string, and never of one holding `.`, `+` or `-` |
| Text.ParseInt | Scripts/generate_music.py:59 | `int()` reads a digit string as its decimal value; whatever it accepts is non-empty, digits after an optional leading sign, and a negative result comes from a leading `-`; a `+` or `-` followed by digits reads as that signed value (`int('-7') == -7`) |
| Text.ParseIntOfNatToString | Scripts/generate_music.py:59 | `int(str(n)) == n` for every natural n, and `int('')` raises |
| Text.Split | Scripts/generate_music.py:56 | `split('.')` yields at least one piece and no piece contains `.` |
| Text.JoinSplit | Scripts/generate_music.py:56 | joining the pieces of `split('.')` with `.` gives back the token |
| Text.SplitJoin | Scripts/preprocess.py:28 | splitting `'.'.join(parts)` on `.` gives back `parts` when there is at least one part and none contains `.` |
| Text.Join | Scripts/preprocess.py:28 | `'.'.join(parts)` starts with the first part, followed by the separator when there is a second; over parts without `.`, the result holds `.` exactly when there are two or more parts |
| Text.StrLess | Scripts/preprocess.py:38 | a proper prefix sorts before the longer string |
| Text.StrLessFirstDifference | Scripts/preprocess.py:38 | past a common prefix, the first differing code point decides the order |
| Text.StrLessIrreflexive | Scripts/preprocess.py:38 | no string sorts before itself |
| Text.StrLessTransitive | Scripts/preprocess.py:38 | the string order `sorted` uses is transitive |
| Text.StrLessTotal | Scripts/preprocess.py:38 | of two different strings one sorts before the other |
| Text.StrLessAsymmetric | Scripts/preprocess.py:38 | two strings never sort before each other |
| Preprocess.GetNotesFromMidis | Scripts/preprocess.py:9-33 | the appended token list is exactly the corpus tokens: files in order, failed files contributing nothing, elements in order |
| Preprocess.AppendFileTokens | Scripts/preprocess.py:24-28 | the loop over one file appends exactly that file's tokens to the list |
| Preprocess.ChordToken | Scripts/preprocess.py:28 | a chord token holds `.` exactly when the chord has two or more pitch classes, and one pitch class gives a plain digit string |
| Preprocess.EventToken | Scripts/preprocess.py:25-28 | the token of a chord with at least one pitch class holds `.` or is all digits, so the decoder reads it as a chord |
| Preprocess.EventTokensCount | Scripts/preprocess.py:24-28 | a file yields at most one token per element, and exactly one per element when every element is a note or a chord |
| Preprocess.Pitched | Scripts/preprocess.py:24-28 | the elements kept are exactly the notes and chords of the file |
| Preprocess.PitchedAppend | Scripts/preprocess.py:24-28 | keeping the notes and chords distributes over concatenation, so the kept elements stay in input order and keep their multiplicity |
| Preprocess.EventTokensArePitchedInOrder | Scripts/preprocess.py:24-28 | one token per note or chord, in input order, others skipped; a note's token is its pitch string and a chord's is its normal order joined by `.` |
| Preprocess.EventTokensAppend | Scripts/preprocess.py:24-28 | tokenising two element lists in turn is tokenising their concatenation |
| Preprocess.CorpusTokensAppend | Scripts/preprocess.py:11-31 | the tokens of two lists of files in turn are the tokens of their concatenation |
| Preprocess.CorpusTokensEmpty | Scripts/preprocess.py:11-31 | the corpus yields no token exactly when every file failed or holds neither a note nor a chord |
| Preprocess.FailedFileContributesNothing | Scripts/preprocess.py:30-31 | dropping a file whose parse raised leaves the token list unchanged |
| Preprocess.Pitchnames | Scripts/preprocess.py:38 | `pitchnames` is strictly ascending (sorted, no duplicates) and holds exactly the tokens occurring in `notes` |
| Preprocess.Insert | Scripts/preprocess.py:38 | adding one token to a strictly ascending list keeps it strictly ascending and adds exactly that token |
| Preprocess.AscendingUnique | Scripts/preprocess.py:38 | two strictly ascending lists with the same elements are equal |
| Preprocess.PitchnamesIsSortedSet | Scripts/preprocess.py:38 | every strictly ascending list of exactly the tokens of `notes` is `pitchnames` |
| Preprocess.PitchnamesDeterministic | Scripts/preprocess.py:38 | the vocabulary depends only on which tokens occur, not on order or repetition |
| Preprocess.AscendingIsDistinct | Scripts/preprocess.py:38 | a strictly ascending list has no repeated entry |
| Preprocess.NoteToInt | Scripts/preprocess.py:41 | the keys of `note_to_int` are exactly the names listed, each mapped to a position that holds it |
| Preprocess.NoteToIntLastOccurrence | Scripts/preprocess.py:41 | a name listed twice keeps its last position |
| Preprocess.NoteToIntOfDistinct | Scripts/preprocess.py:41 | over a list without repetitions `note_to_int[p[k]] == k` |
| Preprocess.VocabularyIndices | Scripts/preprocess.py:41 | `note_to_int[pitchnames[k]] == k` and different tokens get different indices |
| Preprocess.Lookup | Scripts/preprocess.py:50 | one index per token, equal tokens getting equal indices |
| Preprocess.LookupSlice | Scripts/preprocess.py:50 | looking up the tokens of a slice is slicing the looked-up indices |
| Preprocess.Encode | Scripts/preprocess.py:50-51 | the encoded stream has one index per token, each below `n_vocab` |
| Preprocess.EncodeDecodes | Scripts/preprocess.py:50-51 | `pitchnames[index of notes[k]] == notes[k]` |
| Preprocess.Windows | Scripts/preprocess.py:47-50 | max(0, len − S) windows, each of length S |
| Preprocess.Targets | Scripts/preprocess.py:47-51 | one target per window: max(0, len − S) of them |
| Preprocess.WindowsAt | Scripts/preprocess.py:47-51 | there are max(0, len − S) pairs; window i is entries i..i+S−1 and its target is entry i+S |
| Preprocess.CollectPairs | Scripts/preprocess.py:47-51 | the loop's lists are the windows and targets of the encoded stream, max(0, len − S) of each |
| Preprocess.Normalise | Scripts/preprocess.py:60 | dividing by n keeps the length and each entry times n is the index |
| Preprocess.NormaliseInUnitInterval | Scripts/preprocess.py:60 | indices below n normalise into [0, 1) |
| Preprocess.OneHot | Scripts/preprocess.py:63 | a one-hot row over n classes has n entries, a one exactly at the class and zeros everywhere else |
| Preprocess.OneHotSumsToOne | Scripts/preprocess.py:63 | a one-hot row for a class below n has length n, a 1 at the class, 0 elsewhere, and sums to 1 |
| Preprocess.NetworkInput | Scripts/preprocess.py:47-60 | `network_input` has max(0, len − S) rows of S entries each |
| Preprocess.NetworkOutput | Scripts/preprocess.py:47-63 | `network_output` has max(0, len − S) rows of `n_vocab` entries each |
| Preprocess.PrepareSequences | Scripts/preprocess.py:35-65 | raises exactly when `notes` is empty (one-hot over zero classes); otherwise returns the sorted vocabulary, its size, and the input and output rows of the windowed, encoded stream |
| Preprocess.PreparedPairs | Scripts/preprocess.py:47-63 | as many input as output rows, max(0, len − S); row i is window i divided by `n_vocab` and the one-hot of the index after it |
| Preprocess.PreparedPairsInRange | Scripts/preprocess.py:60-63 | every input entry lies in [0, 1); every output row has `n_vocab` entries summing to 1 |
| Preprocess.PrepareScenario | Scripts/preprocess.py:35-65 | C4 E4 G4 C4 E4 G4 C4 with S = 3 gives 4 pairs, the first being [0, 1, 2]/3 against one-hot of index 0 |
| Preprocess.ThreeTokenEncoding | Scripts/preprocess.py:38-51 | a b c a b c a with a < b < c has vocabulary a, b, c and encodes as 0 1 2 0 … |
| GenerateMusic.IntToNoteDomain | Scripts/generate_music.py:16 | the keys of `int_to_note` are exactly the positions of the vocabulary, each mapped to the entry there |
| GenerateMusic.MappingsAreInverse | Scripts/generate_music.py:15-16 | `int_to_note[note_to_int[t]] == t` always; `note_to_int[int_to_note[k]] == k` over a vocabulary without repetitions |
| GenerateMusic.Argmax | Scripts/generate_music.py:37 | `np.argmax` returns the first position of a largest score |
| GenerateMusic.ArgmaxUnique | Scripts/generate_music.py:37 | the first position of a largest score is unique |
| GenerateMusic.Choose | Scripts/generate_music.py:30-38 | a successful step yields an index inside the vocabulary |
| GenerateMusic.ChooseOutcomes | Scripts/generate_music.py:30-38 | a step fails for an empty vocabulary or empty scores, and otherwise picks the first largest score: it succeeds with that index exactly when it lies inside the vocabulary, and fails with `UnknownIndex` of that index exactly when it lies beyond |
| GenerateMusic.PredictNext | Scripts/generate_music.py:30-38 | the loop body's prediction and lookup agree with one greedy step, and a chosen index is a key of `int_to_note` |
| GenerateMusic.Slide | Scripts/generate_music.py:42-43 | append-then-drop-head keeps the pattern length and is `old[1:] + [index]` for a non-empty pattern |
| GenerateMusic.Roll | Scripts/generate_music.py:42-43 | the pattern keeps the seed's length through any number of updates |
| GenerateMusic.RollKeepsLastEntries | Scripts/generate_music.py:42-43 | after k steps the pattern is the last entries of seed + chosen indices |
| GenerateMusic.RollAppend | Scripts/generate_music.py:42-43 | one more update after k steps is rolling by the k + 1 indices |
| GenerateMusic.Rollout | Scripts/generate_music.py:28-43 | n successful steps give n indices, each inside the vocabulary |
| GenerateMusic.RolloutStep | Scripts/generate_music.py:28-43 | n+1 steps give ix exactly when the first step picks ix[0] and the remaining n steps from the slid pattern give the rest |
| GenerateMusic.RolloutIsGreedy | Scripts/generate_music.py:28-43 | n steps give ix exactly when \|ix\| = n and each ix[k] is the greedy choice from the pattern rolled forward by ix[..k] |
| GenerateMusic.InitialPattern | Scripts/generate_music.py:19-23 | the seed is `start_with` itself when one is given; it fails exactly when `start_with` is absent and randint's range is empty; a random seed has S indices inside the vocabulary |
| GenerateMusic.SeedIsConsecutiveIndices | Scripts/generate_music.py:20-21 | over a vocabulary without repetitions the random seed is `start, start+1, …, start+S−1` |
| GenerateMusic.TokensOf | Scripts/generate_music.py:38-39 | output token k is `int_to_note` of chosen index k |
| GenerateMusic.Named | Scripts/generate_music.py:38-39 | the loop's outcome as tokens: success exactly when the rollout succeeded, one vocabulary token per chosen index, token k being `int_to_note[index k]`, and otherwise the same error |
| GenerateMusic.Generate | Scripts/generate_music.py:6-45 | `generate_music` returns `num_notes` vocabulary tokens, and raises at the seed when no random start can be drawn |
| GenerateMusic.RolloutSucceeds | Scripts/generate_music.py:28-43 | with a non-empty vocabulary and a predictor returning between one and `n_vocab` scores, every run of the loop ends without an error |
| GenerateMusic.GenerateSucceeds | Scripts/generate_music.py:6-45 | `generate_music` returns its tokens whenever the seed can be formed (given, or randint's range non-empty) and the predictor returns between one and `n_vocab` scores |
| GenerateMusic.PredictorInputs | Scripts/generate_music.py:30-34 | step k's predictor input has the seed's length and is the seed rolled forward by the first k choices, divided by `n_vocab` |
| GenerateMusic.GenerateFrom | Scripts/generate_music.py:25-45 | the loop returns the tokens of the greedy rollout or its error; the predictor is called once per completed step, and on success its k-th input is the seed rolled forward by the first k chosen indices, normalised |
| GenerateMusic.GenerateMusicTokens | Scripts/generate_music.py:6-45 | generate_music returns exactly `num_notes` vocabulary tokens or the error; on success the predictor is called `num_notes` times, the k-th time on the seed rolled forward by the first k chosen indices |
| GenerateMusic.TrainingWindowsSlide | Scripts/generate_music.py:42-43 | the pattern update reproduces the training windows: window i+1 is window i with its target slid in |
| GenerateMusic.IsChordToken | Scripts/generate_music.py:55 | a chord token is never empty, and one without `.` is a single number `int()` accepts |
| GenerateMusic.DecodeToken | Scripts/generate_music.py:55-70 | a token decodes to a chord exactly when it contains `.` or is all digits; chord notes are the `int()` of the split parts; every note is tagged Piano; decoding fails exactly when the token is a chord token and `int()` rejects one of its parts |
| GenerateMusic.CreateMidi | Scripts/generate_music.py:49-73 | succeeds exactly when every token decodes; element k is token k decoded at offset k half beats; a failure names the first failing token and position |
| GenerateMusic.ChordTokenRoundTrip | Scripts/generate_music.py:55-59 | a chord token from a non-empty normal order is classified as a chord and its parts parse back to the normal order |
| GenerateMusic.EventRoundTrip | Scripts/generate_music.py:55-70 | every token the tokeniser emits decodes to the same note or chord, for pitch names that contain no `.` and are not all digits and chords with at least one pitch class |
| GenerateMusic.GenerateScenario | Scripts/generate_music.py:28-43 | seed [C4, E4, G4] with scores peaking at G4 yields G4, G4 in two steps |
| GenerateMusic.LongScoresFailLookup | Scripts/generate_music.py:37-38 | scores longer than the vocabulary with a score past it above every score inside it make the step fail with `UnknownIndex` of the first largest score, which lies past the vocabulary (the `KeyError` at `int_to_note[index]`) |
| GenerateMusic.DecodeScenario | Scripts/generate_music.py:55-62 | "0.4.7" decodes to a chord of pitch numbers 0, 4, 7 |

## Left out

- File discovery and parsing in get_notes_from_midis:
  - `glob` (Scripts/preprocess.py:11).
  - music21's `converter.parse`, `partitionByInstrument` and the choice between `recurse()` and `flat.notes` (lines 13-22).
  - The prints.
  - The model starts from the parsed element lists. A note's pitch string and a chord's normal order are given.
- GetNotesFromMidis: an exception raised after some of a file's tokens were appended would keep those tokens. The model only has whole files that fail before any append.
- `np.reshape` (Scripts/preprocess.py:57 and Scripts/generate_music.py:30) only changes the shape. Rows are sequences of reals without the trailing feature dimension of 1.
- Floating point: the division by `n_vocab` and the scores are exact reals.
  - Rounding is not modelled.
  - NaN scores are not modelled, and neither is `np.argmax`'s treatment of them.
- The Keras model and `load_model` are a total predictor function. Softmax is not modelled.
- `pickle` loading of `pitchnames` (Scripts/generate_music.py:11-12) is not modelled. The vocabulary is a parameter.
- `np.random.randint` is not modelled. The start is a parameter constrained to randint's range.
- GenerateMusicTokens does not model the aliasing of `start_with`. In the source, the first `pattern.append` also extends the caller's list. The model's pattern is a fresh sequence.
- GenerateMusicTokens: with an empty vocabulary and a caller seed, the source divides by 0.0 and gets inf/NaN without raising. It then calls the predictor and fails with `KeyError` at `int_to_note`. The model stops at the division with `EmptyVocabulary` instead.
- `sequence_length` is a natural number. The slicing behaviour of a negative window length is not modelled.
- GenerateMusicTokens takes `num_notes` as a natural number. In the source a negative `num_notes` makes `range` empty and the call returns `[]`; that input is not modelled.
- DecodeToken:
  - `str.isdigit` and `int()` are modelled over ASCII only.
  - The non-ASCII digits `isdigit` accepts are not modelled.
  - The whitespace and `_` separators `int()` tolerates are not modelled.
- DecodeToken keeps a note's name uninterpreted. Pitch-name validation by `note.Note(pattern)` is not modelled, so an invalid name raises there but decodes here.
- The chord, stream and MIDI file objects are not modelled:
  - `chord.Chord`, `stream.Stream`;
  - `write('midi')`, the print (Scripts/generate_music.py:62, 76-80).
  - Decoding yields plain elements, and offsets are counted in half beats.
- Scripts/train_model.py is not part of this model. It is network construction and training.
