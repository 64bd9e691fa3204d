/** Scripts/generate_music.py: greedy autoregressive generation of tokens
    with a trained predictor (generate_music), and decoding of the generated
    tokens into timed notes and chords (create_midi). */
module GenerateMusic {
  import opened Wrappers
  import opened Text
  import opened Preprocess

  // ---------------------------------------------------------------------
  // The two mapping dictionaries
  // ---------------------------------------------------------------------

  /** int_to_note: each position of p mapped to the entry there. */
  function IntToNote(p: seq<string>): map<nat, string>
  {
    map k | 0 <= k < |p| :: p[k]
  }

  /** The keys of int_to_note are exactly the positions of p, and each
      position names the vocabulary entry there. */
  lemma IntToNoteDomain(p: seq<string>)
    ensures forall k: nat :: k in IntToNote(p) <==> k < |p|
    ensures forall k | k in IntToNote(p) :: IntToNote(p)[k] in p && IntToNote(p)[k] == p[k]
  {
  }

  /** note_to_int and int_to_note are inverse to each other: every name maps
      to a position that maps back to it, and, when the names are distinct,
      every position maps to a name that maps back to it. */
  lemma MappingsAreInverse(p: seq<string>)
    ensures forall t | t in NoteToInt(p) ::
              NoteToInt(p)[t] in IntToNote(p) && IntToNote(p)[NoteToInt(p)[t]] == t
    ensures Distinct(p) ==> forall k | 0 <= k < |p| ::
              k in IntToNote(p) && IntToNote(p)[k] in NoteToInt(p) && NoteToInt(p)[IntToNote(p)[k]] == k
  {
    if Distinct(p) {
      NoteToIntOfDistinct(p);
    }
  }

  // ---------------------------------------------------------------------
  // One generation step
  // ---------------------------------------------------------------------

  /** Why generate_music stops without a result. */
  datatype GenError =
    | EmptySeedRange          // the random start is drawn from an empty range
    | EmptyVocabulary         // nothing to normalise by and nothing int_to_note could return
    | EmptyPrediction         // np.argmax of an empty score vector
    | UnknownIndex(index: nat) // int_to_note[index] for an index beyond the vocabulary

  /** k is the first position of a largest score. */
  predicate IsFirstMax(scores: seq<real>, k: nat)
  {
    k < |scores| &&
    (forall j | 0 <= j < |scores| :: scores[j] <= scores[k]) &&
    (forall j | 0 <= j < k :: scores[j] < scores[k])
  }

  /** np.argmax: the first position of the largest score. */
  function Argmax(scores: seq<real>): (k: nat)
    requires |scores| > 0
    ensures IsFirstMax(scores, k)
  {
    if |scores| == 1 then 0
    else
      var k := Argmax(scores[..|scores| - 1]);
      if scores[k] < scores[|scores| - 1] then |scores| - 1 else k
  }

  /** The first-maximum rule picks exactly one position. */
  lemma ArgmaxUnique(scores: seq<real>, k: nat)
    requires IsFirstMax(scores, k)
    ensures k == Argmax(scores)
  {
  }

  /** The body of the generation loop up to the lookup: normalise the
      pattern, ask the predictor, take the first largest score, and check
      that int_to_note knows that index. */
  function Choose(p: seq<string>, predict: seq<real> -> seq<real>, pattern: seq<int>): (r: Result<nat, GenError>)
    ensures r.Success? ==> r.value < |p|
  {
    if |p| == 0 then Failure(EmptyVocabulary)
    else
      var prediction := predict(Normalise(pattern, |p|));
      if |prediction| == 0 then Failure(EmptyPrediction)
      else
        var index := Argmax(prediction);
        if index < |p| then Success(index) else Failure(UnknownIndex(index))
  }

  /** Each outcome of a step: no vocabulary, no scores, the first largest
      score when int_to_note has it, and otherwise the unknown index, which
      is the first largest score too. */
  lemma ChooseOutcomes(p: seq<string>, predict: seq<real> -> seq<real>, pattern: seq<int>)
    ensures Choose(p, predict, pattern) == Failure(EmptyVocabulary) <==> |p| == 0
    ensures |p| > 0 ==>
              (Choose(p, predict, pattern) == Failure(EmptyPrediction) <==> |predict(Normalise(pattern, |p|))| == 0)
    ensures Choose(p, predict, pattern).Success? ==>
              |p| > 0 && IsFirstMax(predict(Normalise(pattern, |p|)), Choose(p, predict, pattern).value)
    ensures Choose(p, predict, pattern).Failure? && Choose(p, predict, pattern).error.UnknownIndex? ==>
              |p| > 0 && |p| <= Choose(p, predict, pattern).error.index &&
              IsFirstMax(predict(Normalise(pattern, |p|)), Choose(p, predict, pattern).error.index)
    ensures |p| > 0 && |predict(Normalise(pattern, |p|))| > 0 && Argmax(predict(Normalise(pattern, |p|))) < |p| ==>
              Choose(p, predict, pattern) == Success(Argmax(predict(Normalise(pattern, |p|))))
    ensures |p| > 0 && |predict(Normalise(pattern, |p|))| > 0 && Argmax(predict(Normalise(pattern, |p|))) >= |p| ==>
              Choose(p, predict, pattern) == Failure(UnknownIndex(Argmax(predict(Normalise(pattern, |p|)))))
  {
  }

  /** The pattern update: append the chosen index, then drop the head. */
  function Slide(pattern: seq<int>, index: int): (r: seq<int>)
    ensures |r| == |pattern|
    ensures |pattern| > 0 ==> r == pattern[1..] + [index]
  {
    (pattern + [index])[1..]
  }

  /** The pattern after sliding in each of xs in turn; it keeps its length. */
  function Roll(pattern: seq<int>, xs: seq<int>): (r: seq<int>)
    ensures |r| == |pattern|
    decreases |xs|
  {
    if |xs| == 0 then pattern else Roll(Slide(pattern, xs[0]), xs[1..])
  }

  /** After k steps the pattern is the last |pattern| entries of the seed
      followed by the k chosen indices. */
  lemma {:induction false} RollKeepsLastEntries(pattern: seq<int>, xs: seq<int>)
    ensures Roll(pattern, xs) == (pattern + xs)[|xs|..]
    decreases |xs|
  {
    if |xs| > 0 {
      RollKeepsLastEntries(Slide(pattern, xs[0]), xs[1..]);
      assert Slide(pattern, xs[0]) + xs[1..] == (pattern + xs)[1..];
    }
  }

  /** Sliding in one more index after xs is rolling by xs followed by it. */
  lemma RollAppend(pattern: seq<int>, xs: seq<int>, index: int)
    ensures Roll(pattern, xs + [index]) == Slide(Roll(pattern, xs), index)
  {
    RollKeepsLastEntries(pattern, xs);
    RollKeepsLastEntries(pattern, xs + [index]);
    assert pattern + (xs + [index]) == (pattern + xs) + [index];
  }

  // ---------------------------------------------------------------------
  // The generation loop
  // ---------------------------------------------------------------------

  function Prepend(xs: seq<nat>, r: Result<seq<nat>, GenError>): Result<seq<nat>, GenError>
  {
    match r
    case Success(ys) => Success(xs + ys)
    case Failure(e) => Failure(e)
  }

  /** The indices chosen by n greedy steps from a pattern, or the error that
      ends the loop. */
  function Rollout(p: seq<string>, predict: seq<real> -> seq<real>, pattern: seq<int>, n: nat): (r: Result<seq<nat>, GenError>)
    ensures r.Success? ==> |r.value| == n && forall k | 0 <= k < n :: r.value[k] < |p|
    decreases n
  {
    if n == 0 then Success([])
    else
      match Choose(p, predict, pattern)
      case Failure(e) => Failure(e)
      case Success(index) => Prepend([index], Rollout(p, predict, Slide(pattern, index), n - 1))
  }

  /** Each index in ix is what the step chooses from the pattern rolled
      forward by the indices before it. */
  predicate Greedy(p: seq<string>, predict: seq<real> -> seq<real>, pattern: seq<int>, ix: seq<nat>)
  {
    forall k | 0 <= k < |ix| :: Choose(p, predict, Roll(pattern, ix[..k])) == Success(ix[k])
  }

  /** A greedy run is a greedy first step followed by a greedy run from the
      slid pattern. */
  lemma GreedyUnfold(p: seq<string>, predict: seq<real> -> seq<real>, pattern: seq<int>, ix: seq<nat>)
    requires |ix| > 0
    ensures Greedy(p, predict, pattern, ix) <==>
              Choose(p, predict, pattern) == Success(ix[0]) && Greedy(p, predict, Slide(pattern, ix[0]), ix[1..])
  {
    var rest := ix[1..];
    assert ix[..0] == [];
    forall k | 0 <= k < |rest|
      ensures Roll(pattern, ix[..k + 1]) == Roll(Slide(pattern, ix[0]), rest[..k]) && ix[k + 1] == rest[k]
    {
      assert ix[..k + 1][1..] == rest[..k];
    }
    if Choose(p, predict, pattern) == Success(ix[0]) && Greedy(p, predict, Slide(pattern, ix[0]), rest) {
      forall k | 0 <= k < |ix| ensures Choose(p, predict, Roll(pattern, ix[..k])) == Success(ix[k]) {
        if k > 0 {
          assert Roll(pattern, ix[..k]) == Roll(Slide(pattern, ix[0]), rest[..k - 1]);
        }
      }
    }
  }

  /** n + 1 steps succeed with ix exactly when the first step chooses ix[0]
      and the remaining n steps from the slid pattern give the rest. */
  lemma RolloutStep(p: seq<string>, predict: seq<real> -> seq<real>, pattern: seq<int>, n: nat, ix: seq<nat>)
    requires |ix| == n + 1
    ensures Rollout(p, predict, pattern, n + 1) == Success(ix) <==>
              Choose(p, predict, pattern) == Success(ix[0]) &&
              Rollout(p, predict, Slide(pattern, ix[0]), n) == Success(ix[1..])
  {
    var first := Choose(p, predict, pattern);
    if first.Success? {
      var tail := Rollout(p, predict, Slide(pattern, first.value), n);
      if tail.Success? {
        assert [first.value] + tail.value == ix <==> first.value == ix[0] && tail.value == ix[1..];
      }
    }
  }

  /** One step of the loop: a failing choice ends it with that error, a
      successful one contributes its index ahead of the remaining steps. */
  lemma RolloutUnfold(p: seq<string>, predict: seq<real> -> seq<real>, pattern: seq<int>, n: nat)
    requires n > 0
    ensures Choose(p, predict, pattern).Failure? ==>
              Rollout(p, predict, pattern, n) == Failure(Choose(p, predict, pattern).error)
    ensures Choose(p, predict, pattern).Success? ==>
              Rollout(p, predict, pattern, n) ==
                Prepend([Choose(p, predict, pattern).value], Rollout(p, predict, Slide(pattern, Choose(p, predict, pattern).value), n - 1))
  {
  }

  /** Greedy generation, stated step by step: n steps succeed with indices
      ix exactly when there are n of them and each is what the step chooses
      from the pattern rolled forward by the indices before it. */
  lemma {:induction false} RolloutIsGreedy(p: seq<string>, predict: seq<real> -> seq<real>, pattern: seq<int>, n: nat, ix: seq<nat>)
    ensures Rollout(p, predict, pattern, n) == Success(ix) <==> |ix| == n && Greedy(p, predict, pattern, ix)
    decreases n
  {
    if n > 0 && |ix| == n {
      RolloutIsGreedy(p, predict, Slide(pattern, ix[0]), n - 1, ix[1..]);
      GreedyUnfold(p, predict, pattern, ix);
      RolloutStep(p, predict, pattern, n - 1, ix);
    } else if n == 0 {
      assert Greedy(p, predict, pattern, []);
    }
  }

  /** Without start_with, the random start lies in the range numpy draws it
      from: at least 0 and below the vocabulary size minus sequence_length. */
  predicate StartInRange(p: seq<string>, sequenceLength: nat, startWith: Option<seq<int>>, start: int)
  {
    startWith.None? && |p| > sequenceLength ==> 0 <= start < |p| - sequenceLength
  }

  /** The first pattern: start_with itself, or note_to_int of the vocabulary
      entries start .. start + sequence_length - 1; randint raises when its
      range is empty. */
  function InitialPattern(p: seq<string>, sequenceLength: nat, startWith: Option<seq<int>>, start: int): (r: Result<seq<int>, GenError>)
    requires StartInRange(p, sequenceLength, startWith, start)
    ensures r.Failure? <==> startWith.None? && |p| <= sequenceLength
    ensures startWith.Some? ==> r == Success(startWith.value)
    ensures r.Success? && startWith.None? ==>
              |r.value| == sequenceLength && forall k | 0 <= k < sequenceLength :: 0 <= r.value[k] < |p|
  {
    match startWith
    case Some(pattern) => Success(pattern)
    case None =>
      if |p| - sequenceLength <= 0 then Failure(EmptySeedRange)
      else
        var noteToInt := NoteToInt(p);
        var seed := seq(sequenceLength, k requires 0 <= k < sequenceLength => assert p[start + k] in p; noteToInt[p[start + k]]);
        assert forall k | 0 <= k < sequenceLength :: 0 <= seed[k] < |p| by {
          forall k | 0 <= k < sequenceLength ensures seed[k] < |p| {
            assert p[start + k] in p;
          }
        }
        Success(seed)
  }

  /** The random seed is a run of consecutive vocabulary indices, not a slice
      of the training stream. */
  lemma SeedIsConsecutiveIndices(p: seq<string>, sequenceLength: nat, start: int)
    requires Distinct(p) && |p| > sequenceLength && 0 <= start < |p| - sequenceLength
    ensures InitialPattern(p, sequenceLength, None, start) ==
              Success(seq(sequenceLength, k requires 0 <= k < sequenceLength => start + k))
  {
    NoteToIntOfDistinct(p);
    var seed := InitialPattern(p, sequenceLength, None, start).value;
    forall k | 0 <= k < sequenceLength ensures seed[k] == start + k {
      assert p[start + k] == p[start + k];
    }
    assert seed == seq(sequenceLength, k requires 0 <= k < sequenceLength => start + k);
  }

  /** int_to_note applied to each chosen index. */
  function TokensOf(p: seq<string>, ix: seq<nat>): (r: seq<string>)
    requires forall k | 0 <= k < |ix| :: ix[k] < |p|
    ensures |r| == |ix| && forall k | 0 <= k < |ix| :: r[k] == IntToNote(p)[ix[k]]
  {
    seq(|ix|, k requires 0 <= k < |ix| => p[ix[k]])
  }

  /** The chosen indices as vocabulary tokens, one per index, or the error
      that ended the loop. */
  function Named(p: seq<string>, r: Result<seq<nat>, GenError>): (named: Result<seq<string>, GenError>)
    requires r.Success? ==> forall k | 0 <= k < |r.value| :: r.value[k] < |p|
    ensures named.Success? <==> r.Success?
    ensures r.Failure? ==> named.error == r.error
    ensures r.Success? ==>
              |named.value| == |r.value| &&
              forall k | 0 <= k < |r.value| :: named.value[k] in p && named.value[k] == IntToNote(p)[r.value[k]]
  {
    match r
    case Success(ix) => Success(TokensOf(p, ix))
    case Failure(e) => Failure(e)
  }

  lemma TokensOfAppend(p: seq<string>, ix: seq<nat>, index: nat)
    requires forall k | 0 <= k < |ix| :: ix[k] < |p|
    requires index < |p|
    ensures TokensOf(p, ix + [index]) == TokensOf(p, ix) + [IntToNote(p)[index]]
  {
  }

  /** What generate_music returns, or the error it raises: num_notes
      vocabulary tokens, or the seed error when no start can be drawn. */
  function Generate(p: seq<string>, sequenceLength: nat, numNotes: nat, startWith: Option<seq<int>>,
                    start: int, predict: seq<real> -> seq<real>): (r: Result<seq<string>, GenError>)
    requires StartInRange(p, sequenceLength, startWith, start)
    ensures r.Success? ==> |r.value| == numNotes && forall k | 0 <= k < numNotes :: r.value[k] in p
    ensures startWith.None? && |p| <= sequenceLength ==> r == Failure(EmptySeedRange)
  {
    match InitialPattern(p, sequenceLength, startWith, start)
    case Failure(e) => Failure(e)
    case Success(pattern) => Named(p, Rollout(p, predict, pattern, numNotes))
  }

  /** With a vocabulary and a predictor that returns between one and n_vocab
      scores for every input, each step finds its first largest score in
      int_to_note, so every run of n steps succeeds. */
  lemma {:induction false} RolloutSucceeds(p: seq<string>, predict: seq<real> -> seq<real>, pattern: seq<int>, n: nat)
    requires |p| > 0
    requires forall w :: 0 < |predict(w)| <= |p|
    ensures Rollout(p, predict, pattern, n).Success?
    decreases n
  {
    if n > 0 {
      ChooseOutcomes(p, predict, pattern);
      var index := Choose(p, predict, pattern).value;
      RolloutSucceeds(p, predict, Slide(pattern, index), n - 1);
    }
  }

  /** generate_music returns its tokens whenever the seed can be formed and
      the predictor returns between one and n_vocab scores for every input. */
  lemma GenerateSucceeds(p: seq<string>, sequenceLength: nat, numNotes: nat, startWith: Option<seq<int>>,
                         start: int, predict: seq<real> -> seq<real>)
    requires StartInRange(p, sequenceLength, startWith, start)
    requires |p| > 0 && (startWith.Some? || |p| > sequenceLength)
    requires forall w :: 0 < |predict(w)| <= |p|
    ensures Generate(p, sequenceLength, numNotes, startWith, start, predict).Success?
  {
    var pattern := InitialPattern(p, sequenceLength, startWith, start).value;
    RolloutSucceeds(p, predict, pattern, numNotes);
  }

  /** The inputs the predictor sees when the steps choose ix: step k sees the
      seed rolled forward by the first k choices, divided by n_vocab. */
  function PredictorInputs(p: seq<string>, seed: seq<int>, ix: seq<nat>): (inputs: seq<seq<real>>)
    requires |p| > 0
    ensures |inputs| == |ix| && forall k | 0 <= k < |ix| :: |inputs[k]| == |seed|
  {
    seq(|ix|, k requires 0 <= k < |ix| => Normalise(Roll(seed, ix[..k]), |p|))
  }

  /** One more step adds the pattern it predicts from to the inputs. */
  lemma PredictorInputsAppend(p: seq<string>, seed: seq<int>, ix: seq<nat>, index: nat)
    requires |p| > 0
    ensures PredictorInputs(p, seed, ix + [index]) == PredictorInputs(p, seed, ix) + [Normalise(Roll(seed, ix), |p|)]
  {
    assert forall k | 0 <= k <= |ix| :: (ix + [index])[..k] == ix[..k];
  }

  lemma PrependSuccessor(xs: seq<nat>, index: nat, r: Result<seq<nat>, GenError>)
    ensures Prepend(xs, Prepend([index], r)) == Prepend(xs + [index], r)
  {
    if r.Success? {
      assert xs + ([index] + r.value) == (xs + [index]) + r.value;
    }
  }

  /** After the indices chosen so far, a successful step moves its index
      from the remaining steps to the chosen ones. */
  lemma RolloutAdvances(p: seq<string>, predict: seq<real> -> seq<real>, seed: seq<int>, numNotes: nat,
                        chosen: seq<nat>, pattern: seq<int>, remaining: nat)
    requires remaining > 0 && Choose(p, predict, pattern).Success?
    requires Rollout(p, predict, seed, numNotes) == Prepend(chosen, Rollout(p, predict, pattern, remaining))
    ensures Rollout(p, predict, seed, numNotes) ==
              Prepend(chosen + [Choose(p, predict, pattern).value],
                      Rollout(p, predict, Slide(pattern, Choose(p, predict, pattern).value), remaining - 1))
  {
    var index := Choose(p, predict, pattern).value;
    RolloutUnfold(p, predict, pattern, remaining);
    PrependSuccessor(chosen, index, Rollout(p, predict, Slide(pattern, index), remaining - 1));
  }

  /** After the indices chosen so far, a failing step is the outcome of the
      whole generation. */
  lemma RolloutStops(p: seq<string>, predict: seq<real> -> seq<real>, seed: seq<int>, numNotes: nat,
                     chosen: seq<nat>, pattern: seq<int>, remaining: nat)
    requires remaining > 0 && Choose(p, predict, pattern).Failure?
    requires Rollout(p, predict, seed, numNotes) == Prepend(chosen, Rollout(p, predict, pattern, remaining))
    ensures Named(p, Rollout(p, predict, seed, numNotes)) == Failure(Choose(p, predict, pattern).error)
  {
    RolloutUnfold(p, predict, pattern, remaining);
  }

  /** generate_music with the model and pitchnames already loaded: the
      predictor is a function from the normalised pattern to scores, and the
      random start is a parameter. queries records the predictor's inputs. */
  method GenerateMusicTokens(pitchnames: seq<string>, sequenceLength: nat, numNotes: nat,
                             startWith: Option<seq<int>>, start: int, predict: seq<real> -> seq<real>)
    returns (r: Result<seq<string>, GenError>, ghost queries: seq<seq<real>>)
    requires StartInRange(pitchnames, sequenceLength, startWith, start)
    ensures r == Generate(pitchnames, sequenceLength, numNotes, startWith, start, predict)
    ensures r.Success? ==> |r.value| == numNotes && forall k | 0 <= k < numNotes :: r.value[k] in pitchnames
    ensures |queries| <= numNotes && (r.Success? ==> |queries| == numNotes)
    ensures InitialPattern(pitchnames, sequenceLength, startWith, start).Success? ==>
              forall k | 0 <= k < |queries| :: |queries[k]| == |InitialPattern(pitchnames, sequenceLength, startWith, start).value|
    ensures r.Success? && |pitchnames| > 0 ==>
              var seed := InitialPattern(pitchnames, sequenceLength, startWith, start).value;
              queries == PredictorInputs(pitchnames, seed, Rollout(pitchnames, predict, seed, numNotes).value)
  {
    queries := [];
    var noteToInt := NoteToInt(pitchnames);
    var pattern: seq<int>;
    if startWith.None? {
      if |pitchnames| - sequenceLength <= 0 {
        return Failure(EmptySeedRange), queries;
      }
      pattern := seq(sequenceLength, k requires 0 <= k < sequenceLength => assert pitchnames[start + k] in pitchnames; noteToInt[pitchnames[start + k]]);
    } else {
      pattern := startWith.value;
    }
    assert InitialPattern(pitchnames, sequenceLength, startWith, start) == Success(pattern);
    r, queries := GenerateFrom(pitchnames, predict, pattern, numNotes);
  }

  /** The loop of generate_music: num_notes greedy steps from a pattern,
      each sliding the chosen index into the pattern. */
  method GenerateFrom(pitchnames: seq<string>, predict: seq<real> -> seq<real>, seed: seq<int>, numNotes: nat)
    returns (r: Result<seq<string>, GenError>, ghost queries: seq<seq<real>>)
    ensures r == Named(pitchnames, Rollout(pitchnames, predict, seed, numNotes))
    ensures |queries| <= numNotes && (r.Success? ==> |queries| == numNotes)
    ensures forall k | 0 <= k < |queries| :: |queries[k]| == |seed|
    ensures r.Success? && |pitchnames| > 0 ==>
              queries == PredictorInputs(pitchnames, seed, Rollout(pitchnames, predict, seed, numNotes).value)
  {
    queries := [];
    var intToNote := IntToNote(pitchnames);
    var pattern := seed;
    var predictionOutput: seq<string> := [];
    ghost var chosen: seq<nat> := [];
    ghost var whole := Rollout(pitchnames, predict, seed, numNotes);
    assert Prepend(chosen, Rollout(pitchnames, predict, pattern, numNotes)) == whole by {
      if whole.Success? {
        assert [] + whole.value == whole.value;
      }
    }
    for noteIndex := 0 to numNotes
      invariant pattern == Roll(seed, chosen)
      invariant noteIndex > 0 ==> |pitchnames| > 0
      invariant |queries| == |chosen| == noteIndex
      invariant |pitchnames| > 0 ==> queries == PredictorInputs(pitchnames, seed, chosen)
      invariant forall k | 0 <= k < |chosen| :: chosen[k] < |pitchnames|
      invariant predictionOutput == TokensOf(pitchnames, chosen)
      invariant whole == Prepend(chosen, Rollout(pitchnames, predict, pattern, numNotes - noteIndex))
    {
      if |pitchnames| > 0 {
        queries := queries + [Normalise(pattern, |pitchnames|)];
      }
      var step := PredictNext(pitchnames, intToNote, predict, pattern);
      if step.Failure? {
        RolloutStops(pitchnames, predict, seed, numNotes, chosen, pattern, numNotes - noteIndex);
        return Failure(step.error), queries;
      }
      var index := step.value;
      var result := intToNote[index];
      TokensOfAppend(pitchnames, chosen, index);
      predictionOutput := predictionOutput + [result];
      RolloutAdvances(pitchnames, predict, seed, numNotes, chosen, pattern, numNotes - noteIndex);
      ghost var previous := pattern;
      pattern := pattern + [index];
      pattern := pattern[1..|pattern|];
      assert pattern == Slide(previous, index);
      RollAppend(seed, chosen, index);
      PredictorInputsAppend(pitchnames, seed, chosen, index);
      chosen := chosen + [index];
    }
    assert chosen + [] == chosen;
    r := Success(predictionOutput);
  }

  /** The body of the generation loop up to the lookup: normalise the
      pattern by n_vocab, predict, take the first largest score and check
      that int_to_note has it. */
  method PredictNext(pitchnames: seq<string>, intToNote: map<nat, string>, predict: seq<real> -> seq<real>, pattern: seq<int>)
    returns (r: Result<nat, GenError>)
    requires intToNote == IntToNote(pitchnames)
    ensures r == Choose(pitchnames, predict, pattern)
    ensures r.Success? ==> r.value in intToNote
  {
    if |pitchnames| == 0 {
      return Failure(EmptyVocabulary);
    }
    var predictionInput := Normalise(pattern, |pitchnames|);
    var prediction := predict(predictionInput);
    if |prediction| == 0 {
      return Failure(EmptyPrediction);
    }
    var index := Argmax(prediction);
    if index !in intToNote {
      return Failure(UnknownIndex(index));
    }
    r := Success(index);
  }

  /** The training windows slide exactly as the generation pattern does:
      window i + 1 is window i with its target slid in. */
  lemma TrainingWindowsSlide(xs: seq<nat>, sequenceLength: nat, i: nat)
    requires i + 1 < |Windows(xs, sequenceLength)| && i < |Targets(xs, sequenceLength)|
    ensures Windows(xs, sequenceLength)[i + 1] ==
              Slide(Windows(xs, sequenceLength)[i], Targets(xs, sequenceLength)[i])
  {
    WindowsAt(xs, sequenceLength);
    assert (xs[i..i + sequenceLength] + [xs[i + sequenceLength]])[1..] == xs[i + 1..i + 1 + sequenceLength];
  }

  // ---------------------------------------------------------------------
  // Decoding generated tokens: create_midi
  // ---------------------------------------------------------------------

  datatype Instrument = Piano

  /** A chord's notes are built from pitch numbers, a single note from a pitch name. */
  datatype Pitch = FromInt(value: int) | FromName(name: string)

  datatype MidiNote = MidiNote(pitch: Pitch, instrument: Instrument)

  /** A decoded element with its offset in half beats (offset k is 0.5 * k). */
  datatype Element =
    | NoteElement(note: MidiNote, offset: nat)
    | ChordElement(notes: seq<MidiNote>, offset: nat)

  /** The token at position, whose chord part int() rejects. */
  datatype DecodeError = DecodeError(position: nat, token: string)

  /** create_midi's chord test: the token holds a '.' or is all digits. A
      chord token is never empty, and one without a '.' is a single number
      that int() accepts. */
  predicate IsChordToken(t: string)
    ensures IsChordToken(t) ==> |t| > 0
    ensures IsChordToken(t) && '.' !in t ==> ParseInt(t).Some?
  {
    '.' in t || IsDigitString(t)
  }

  /** The element one token becomes at the given offset, or None when int()
      rejects a part of a chord token. */
  function DecodeToken(t: string, offset: nat): (r: Option<Element>)
    ensures r.Some? ==> r.value.offset == offset
    ensures r.Some? ==> (r.value.ChordElement? <==> IsChordToken(t))
    ensures r.None? <==> IsChordToken(t) && exists k | 0 <= k < |Split(t, '.')| :: ParseInt(Split(t, '.')[k]).None?
    ensures r.Some? && r.value.NoteElement? ==> r.value.note == MidiNote(FromName(t), Piano)
    ensures r.Some? && r.value.ChordElement? ==>
              |r.value.notes| == |Split(t, '.')| &&
              forall k | 0 <= k < |r.value.notes| ::
                r.value.notes[k].instrument == Piano && r.value.notes[k].pitch.FromInt? &&
                Some(r.value.notes[k].pitch.value) == ParseInt(Split(t, '.')[k])
  {
    if IsChordToken(t) then
      var parts := Split(t, '.');
      if forall k | 0 <= k < |parts| :: ParseInt(parts[k]).Some? then
        Some(ChordElement(seq(|parts|, k requires 0 <= k < |parts| => MidiNote(FromInt(ParseInt(parts[k]).value), Piano)), offset))
      else
        assert exists k | 0 <= k < |parts| :: ParseInt(parts[k]).None?;
        None
    else Some(NoteElement(MidiNote(FromName(t), Piano), offset))
  }

  /** create_midi up to the MIDI write: one element per token, in order, the
      k-th at offset k half beats; the first token with a part int() rejects
      aborts the whole decoding. */
  method CreateMidi(predictionOutput: seq<string>) returns (r: Result<seq<Element>, DecodeError>)
    ensures r.Success? <==> forall k | 0 <= k < |predictionOutput| :: DecodeToken(predictionOutput[k], k).Some?
    ensures r.Success? ==>
              |r.value| == |predictionOutput| &&
              forall k | 0 <= k < |predictionOutput| ::
                Some(r.value[k]) == DecodeToken(predictionOutput[k], k) && r.value[k].offset == k
    ensures r.Failure? ==>
              r.error.position < |predictionOutput| &&
              r.error.token == predictionOutput[r.error.position] &&
              DecodeToken(r.error.token, r.error.position).None? &&
              forall k | 0 <= k < r.error.position :: DecodeToken(predictionOutput[k], k).Some?
  {
    var offset: nat := 0;
    var outputNotes: seq<Element> := [];
    for i := 0 to |predictionOutput|
      invariant offset == i && |outputNotes| == i
      invariant forall k | 0 <= k < i :: DecodeToken(predictionOutput[k], k) == Some(outputNotes[k])
    {
      var pattern := predictionOutput[i];
      if '.' in pattern || IsDigitString(pattern) {
        var notesInChord := Split(pattern, '.');
        var notes: seq<MidiNote> := [];
        for j := 0 to |notesInChord|
          invariant |notes| == j
          invariant forall k | 0 <= k < j ::
                      ParseInt(notesInChord[k]).Some? && notes[k] == MidiNote(FromInt(ParseInt(notesInChord[k]).value), Piano)
        {
          var currentNote := ParseInt(notesInChord[j]);
          if currentNote.None? {
            return Failure(DecodeError(i, pattern));
          }
          notes := notes + [MidiNote(FromInt(currentNote.value), Piano)];
        }
        assert notes == seq(|notesInChord|, k requires 0 <= k < |notesInChord| => MidiNote(FromInt(ParseInt(notesInChord[k]).value), Piano));
        outputNotes := outputNotes + [ChordElement(notes, offset)];
      } else {
        outputNotes := outputNotes + [NoteElement(MidiNote(FromName(pattern), Piano), offset)];
      }
      offset := offset + 1;
    }
    r := Success(outputNotes);
  }

  // ---------------------------------------------------------------------
  // Round trips between the tokeniser and the decoder
  // ---------------------------------------------------------------------

  /** The element a note or chord event should decode to at an offset. */
  function Rendered(e: Event, offset: nat): Element
    requires !e.Other?
  {
    match e
    case Note(pitch) => NoteElement(MidiNote(FromName(pitch), Piano), offset)
    case Chord(normalOrder) =>
      ChordElement(seq(|normalOrder|, k requires 0 <= k < |normalOrder| => MidiNote(FromInt(normalOrder[k]), Piano)), offset)
  }

  /** A chord token built from a non-empty normal order is recognised as a
      chord, and its parts parse back to the normal order. */
  lemma ChordTokenRoundTrip(normalOrder: seq<nat>, offset: nat)
    requires |normalOrder| > 0
    ensures IsChordToken(ChordToken(normalOrder))
    ensures Split(ChordToken(normalOrder), '.') == DecimalStrings(normalOrder)
    ensures DecodeToken(ChordToken(normalOrder), offset) == Some(Rendered(Chord(normalOrder), offset))
  {
    var parts := DecimalStrings(normalOrder);
    forall k | 0 <= k < |parts| ensures '.' !in parts[k] && ParseInt(parts[k]) == Some(normalOrder[k]) {
      ParseIntOfNatToString(normalOrder[k]);
    }
    SplitJoin(parts, '.');
    var decoded := DecodeToken(ChordToken(normalOrder), offset);
    assert decoded.Some? && decoded.value.ChordElement?;
    assert decoded.value.notes == Rendered(Chord(normalOrder), offset).notes;
  }

  /** Every note or chord the tokeniser emits decodes to the same note or
      chord, for pitch names without '.' that are not all digits (every
      music21 pitch name has a letter) and chords with at least one pitch. */
  lemma EventRoundTrip(e: Event, offset: nat)
    requires !e.Other?
    requires e.Note? ==> '.' !in e.pitch && !IsDigitString(e.pitch)
    requires e.Chord? ==> |e.normalOrder| > 0
    ensures DecodeToken(EventToken(e), offset) == Some(Rendered(e, offset))
  {
    if e.Chord? {
      ChordTokenRoundTrip(e.normalOrder, offset);
    }
  }

  // ---------------------------------------------------------------------
  // Concrete scenarios
  // ---------------------------------------------------------------------

  /** A predictor stub whose scores always peak at index 2. */
  function PeakAtTwo(window: seq<real>): seq<real>
  {
    [0.1, 0.2, 0.7]
  }

  /** Seeded with the indices of C4, E4, G4 and a predictor peaking at G4,
      two steps produce G4, G4. */
  lemma GenerateScenario()
    ensures Generate(["C4", "E4", "G4"], 3, 2, Some([0, 1, 2]), 0, PeakAtTwo) == Success(["G4", "G4"])
  {
    var p := ["C4", "E4", "G4"];
    ChoosePeak(p, [0, 1, 2]);
    ChoosePeak(p, [1, 2, 2]);
    assert Slide([0, 1, 2], 2) == [1, 2, 2];
    assert Slide([1, 2, 2], 2) == [2, 2, 2];
    assert [2] + [] == [2] && [2] + [2] == [2, 2];
    assert Rollout(p, PeakAtTwo, [2, 2, 2], 0) == Success([]);
    assert Rollout(p, PeakAtTwo, [1, 2, 2], 1) == Success([2]);
    assert Rollout(p, PeakAtTwo, [0, 1, 2], 2) == Success([2, 2]);
    assert TokensOf(p, [2, 2]) == ["G4", "G4"];
  }

  /** With three names, the stub's peak is always a known index. */
  lemma ChoosePeak(p: seq<string>, pattern: seq<int>)
    requires |p| == 3
    ensures Choose(p, PeakAtTwo, pattern) == Success(2)
  {
    var scores := PeakAtTwo(Normalise(pattern, |p|));
    ChooseOutcomes(p, PeakAtTwo, pattern);
    assert Choose(p, PeakAtTwo, pattern).Success?;
    ArgmaxUnique(scores, 2);
    ArgmaxUnique(scores, Choose(p, PeakAtTwo, pattern).value);
  }

  /** A score vector longer than the vocabulary, with a score past the
      vocabulary above every score inside it, makes the int_to_note lookup
      fail with the first largest score, which lies past the vocabulary. */
  lemma LongScoresFailLookup(p: seq<string>, predict: seq<real> -> seq<real>, pattern: seq<int>, j: nat)
    requires |p| > 0
    requires |p| <= j < |predict(Normalise(pattern, |p|))|
    requires forall i | 0 <= i < |p| :: predict(Normalise(pattern, |p|))[i] < predict(Normalise(pattern, |p|))[j]
    ensures Argmax(predict(Normalise(pattern, |p|))) >= |p|
    ensures Choose(p, predict, pattern) == Failure(UnknownIndex(Argmax(predict(Normalise(pattern, |p|)))))
  {
    var scores := predict(Normalise(pattern, |p|));
    var k := Argmax(scores);
    assert scores[j] <= scores[k];
    ChooseOutcomes(p, predict, pattern);
  }

  /** The token "0.4.7" decodes to a chord of pitch numbers 0, 4, 7. */
  lemma DecodeScenario()
    ensures DecodeToken("0.4.7", 0) ==
              Some(ChordElement([MidiNote(FromInt(0), Piano), MidiNote(FromInt(4), Piano), MidiNote(FromInt(7), Piano)], 0))
  {
    assert NatToString(0) == "0" && NatToString(4) == "4" && NatToString(7) == "7";
    assert DecimalStrings([0, 4, 7]) == ["0", "4", "7"];
    assert ChordToken([0, 4, 7]) == "0.4.7";
    var notes := Rendered(Chord([0, 4, 7]), 0).notes;
    assert notes[0] == MidiNote(FromInt(0), Piano) && notes[1] == MidiNote(FromInt(4), Piano) && notes[2] == MidiNote(FromInt(7), Piano);
    assert notes == [MidiNote(FromInt(0), Piano), MidiNote(FromInt(4), Piano), MidiNote(FromInt(7), Piano)];
    ChordTokenRoundTrip([0, 4, 7], 0);
  }
}
