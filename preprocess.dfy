/** Scripts/preprocess.py: turning the parsed MIDI corpus into one token
    stream (get_notes_from_midis), and the token stream into the network's
    training pairs (prepare_sequences). */
module Preprocess {
  import opened Wrappers
  import opened Text

  // ---------------------------------------------------------------------
  // Tokenisation
  // ---------------------------------------------------------------------

  /** One element of a parsed score as music21 yields it: a note, whose pitch
      is already rendered as a string ("C#4", "E-3"); a chord, given by the
      pitch classes of its normal order; or anything else (rests, clefs, ...). */
  datatype Event = Note(pitch: string) | Chord(normalOrder: seq<nat>) | Other

  /** A chord's token: its normal order in decimal, joined by '.'. It holds
      a '.' exactly when the chord has two or more pitch classes, and a chord
      of one pitch class is a plain digit string. */
  function ChordToken(normalOrder: seq<nat>): (r: string)
    ensures '.' in r <==> |normalOrder| > 1
    ensures |normalOrder| == 1 ==> IsDigitString(r)
  {
    Join(DecimalStrings(normalOrder), '.')
  }

  function DecimalStrings(xs: seq<nat>): seq<string>
  {
    seq(|xs|, k requires 0 <= k < |xs| => NatToString(xs[k]))
  }

  /** The token of a note or a chord; a chord of at least one pitch class
      gets a token holding a '.' or made of digits only. */
  function EventToken(e: Event): (r: string)
    requires !e.Other?
    ensures e.Chord? && |e.normalOrder| > 0 ==> '.' in r || IsDigitString(r)
  {
    match e
    case Note(pitch) => pitch
    case Chord(normalOrder) => ChordToken(normalOrder)
  }

  /** The tokens of one file's elements, in order; elements that are neither
      notes nor chords contribute nothing. */
  function EventTokens(events: seq<Event>): seq<string>
  {
    if |events| == 0 then []
    else
      var last := events[|events| - 1];
      EventTokens(events[..|events| - 1]) + (if last.Other? then [] else [EventToken(last)])
  }

  /** The tokens of a corpus, file after file; a file whose parse raised
      (None) contributes nothing. */
  function CorpusTokens(files: seq<Option<seq<Event>>>): seq<string>
  {
    if |files| == 0 then []
    else
      var last := files[|files| - 1];
      CorpusTokens(files[..|files| - 1]) + (if last.None? then [] else EventTokens(last.value))
  }

  /** get_notes_from_midis over already-parsed files: append the token of
      every note and chord, in order. */
  method GetNotesFromMidis(files: seq<Option<seq<Event>>>) returns (notes: seq<string>)
    ensures notes == CorpusTokens(files)
  {
    notes := [];
    for f := 0 to |files|
      invariant notes == CorpusTokens(files[..f])
    {
      assert files[..f + 1][..f] == files[..f];
      match files[f]
      case None =>
      case Some(events) =>
        notes := AppendFileTokens(notes, events);
    }
    assert files[..|files|] == files;
  }

  /** The loop over one parsed file: append the token of every note and
      chord, in order, and skip everything else. */
  method AppendFileTokens(notes: seq<string>, events: seq<Event>) returns (extended: seq<string>)
    ensures extended == notes + EventTokens(events)
  {
    extended := notes;
    for i := 0 to |events|
      invariant extended == notes + EventTokens(events[..i])
    {
      assert events[..i + 1][..i] == events[..i];
      match events[i]
      case Note(pitch) => extended := extended + [pitch];
      case Chord(normalOrder) => extended := extended + [ChordToken(normalOrder)];
      case Other =>
    }
    assert events[..|events|] == events;
  }

  /** The notes and chords of a list of elements, in order. */
  function Pitched(events: seq<Event>): (r: seq<Event>)
    ensures forall e :: e in r <==> e in events && !e.Other?
  {
    if |events| == 0 then []
    else
      var last := events[|events| - 1];
      assert events == events[..|events| - 1] + [last];
      Pitched(events[..|events| - 1]) + (if last.Other? then [] else [last])
  }

  /** Keeping the notes and chords of two lists one after the other is
      keeping those of their concatenation: the kept elements stay in input
      order, each as often as it occurs. */
  lemma {:induction false} PitchedAppend(a: seq<Event>, b: seq<Event>)
    ensures Pitched(a + b) == Pitched(a) + Pitched(b)
  {
    if |b| == 0 {
      assert a + b == a;
    } else {
      assert (a + b)[..|a + b| - 1] == a + b[..|b| - 1];
      PitchedAppend(a, b[..|b| - 1]);
    }
  }

  /** Tokenisation emits exactly one token per note or chord, in input order,
      and skips everything else. */
  lemma {:induction false} EventTokensArePitchedInOrder(events: seq<Event>)
    ensures |EventTokens(events)| == |Pitched(events)|
    ensures forall j | 0 <= j < |Pitched(events)| ::
              !Pitched(events)[j].Other? && EventTokens(events)[j] == EventToken(Pitched(events)[j])
  {
    if |events| > 0 {
      EventTokensArePitchedInOrder(events[..|events| - 1]);
    }
  }

  /** There are at most as many tokens as elements, and exactly as many when
      every element is a note or a chord. */
  lemma {:induction false} EventTokensCount(events: seq<Event>)
    ensures |EventTokens(events)| <= |events|
    ensures |EventTokens(events)| == |events| <==> forall k | 0 <= k < |events| :: !events[k].Other?
  {
    if |events| > 0 {
      var front := events[..|events| - 1];
      EventTokensCount(front);
      assert forall k | 0 <= k < |front| :: front[k] == events[k];
    }
  }

  /** Tokenising two lists one after the other is tokenising their concatenation. */
  lemma {:induction false} EventTokensAppend(a: seq<Event>, b: seq<Event>)
    ensures EventTokens(a + b) == EventTokens(a) + EventTokens(b)
  {
    if |b| == 0 {
      assert a + b == a;
    } else {
      assert (a + b)[..|a + b| - 1] == a + b[..|b| - 1];
      EventTokensAppend(a, b[..|b| - 1]);
    }
  }

  lemma {:induction false} CorpusTokensAppend(a: seq<Option<seq<Event>>>, b: seq<Option<seq<Event>>>)
    ensures CorpusTokens(a + b) == CorpusTokens(a) + CorpusTokens(b)
  {
    if |b| == 0 {
      assert a + b == a;
    } else {
      var front, last := b[..|b| - 1], b[|b| - 1];
      var piece := if last.None? then [] else EventTokens(last.value);
      assert (a + b)[..|a + b| - 1] == a + front;
      assert (a + b)[|a + b| - 1] == last;
      CorpusTokensAppend(a, front);
      calc {
        CorpusTokens(a + b);
        CorpusTokens(a + front) + piece;
        (CorpusTokens(a) + CorpusTokens(front)) + piece;
        CorpusTokens(a) + (CorpusTokens(front) + piece);
        CorpusTokens(a) + CorpusTokens(b);
      }
    }
  }

  /** A corpus yields no token at all exactly when every file failed or
      holds neither a note nor a chord. */
  lemma {:induction false} CorpusTokensEmpty(files: seq<Option<seq<Event>>>)
    ensures CorpusTokens(files) == [] <==>
              forall k | 0 <= k < |files| :: files[k].None? || EventTokens(files[k].value) == []
  {
    if |files| > 0 {
      var front, last := files[..|files| - 1], files[|files| - 1];
      var piece := if last.None? then [] else EventTokens(last.value);
      CorpusTokensEmpty(front);
      assert CorpusTokens(files) == CorpusTokens(front) + piece;
      assert CorpusTokens(files) == [] <==> CorpusTokens(front) == [] && piece == [];
      var allSilent := forall k | 0 <= k < |files| :: files[k].None? || EventTokens(files[k].value) == [];
      var frontSilent := forall k | 0 <= k < |front| :: front[k].None? || EventTokens(front[k].value) == [];
      assert allSilent <==> frontSilent && piece == [] by {
        assert forall k | 0 <= k < |front| :: front[k] == files[k];
      }
    }
  }

  /** A file that failed to parse contributes nothing: dropping it from the
      corpus leaves the token stream as it was. */
  lemma FailedFileContributesNothing(files: seq<Option<seq<Event>>>, k: nat)
    requires k < |files| && files[k].None?
    ensures CorpusTokens(files) == CorpusTokens(files[..k] + files[k + 1..])
  {
    var before, failed, after := files[..k], [files[k]], files[k + 1..];
    assert files == (before + failed) + after;
    FailedFileAlone(files[k]);
    CorpusTokensAppend(before + failed, after);
    CorpusTokensAppend(before, failed);
    CorpusTokensAppend(before, after);
  }

  lemma FailedFileAlone(file: Option<seq<Event>>)
    requires file.None?
    ensures CorpusTokens([file]) == []
  {
    assert [file][..0] == [];
  }

  // ---------------------------------------------------------------------
  // Vocabulary: sorted(set(notes)) and note_to_int
  // ---------------------------------------------------------------------

  predicate StrictlyAscending(s: seq<string>)
  {
    forall i, j | 0 <= i < j < |s| :: StrLess(s[i], s[j])
  }

  predicate Distinct<T(==)>(s: seq<T>)
  {
    forall i, j | 0 <= i < j < |s| :: s[i] != s[j]
  }

  lemma AscendingIsDistinct(s: seq<string>)
    requires StrictlyAscending(s)
    ensures Distinct(s)
  {
    forall i, j | 0 <= i < j < |s| ensures s[i] != s[j] {
      StrLessIrreflexive(s[i]);
    }
  }

  lemma BelowHead(x: string, s: seq<string>)
    requires StrictlyAscending(s) && |s| > 0 && StrLess(x, s[0])
    ensures StrictlyAscending([x] + s)
  {
    forall j | 0 < j < |s| ensures StrLess(x, s[j]) {
      StrLessTransitive(x, s[0], s[j]);
    }
  }

  /** Insert x into a strictly ascending list, unless it is already there. */
  function Insert(s: seq<string>, x: string): (r: seq<string>)
    requires StrictlyAscending(s)
    ensures StrictlyAscending(r)
    ensures forall t :: t in r <==> t in s || t == x
  {
    if |s| == 0 then [x]
    else if x == s[0] then s
    else if StrLess(x, s[0]) then BelowHead(x, s); [x] + s
    else
      StrLessTotal(x, s[0]);
      var r := Insert(s[1..], x);
      assert forall t | t in r :: StrLess(s[0], t) by {
        forall t | t in r ensures StrLess(s[0], t) {
          if t != x {
            var j :| 0 <= j < |s[1..]| && s[1..][j] == t;
            assert s[j + 1] == t;
          }
        }
      }
      assert s == [s[0]] + s[1..];
      [s[0]] + r
  }

  /** pitchnames = sorted(set(notes)): the distinct tokens in ascending
      string order. */
  function Pitchnames(notes: seq<string>): (r: seq<string>)
    ensures StrictlyAscending(r)
    ensures forall t :: t in r <==> t in notes
  {
    if |notes| == 0 then []
    else
      assert notes == notes[..|notes| - 1] + [notes[|notes| - 1]];
      Insert(Pitchnames(notes[..|notes| - 1]), notes[|notes| - 1])
  }

  /** Two strictly ascending lists with the same elements are equal. */
  lemma {:induction false} AscendingUnique(a: seq<string>, b: seq<string>)
    requires StrictlyAscending(a) && StrictlyAscending(b)
    requires forall t :: t in a <==> t in b
    ensures a == b
  {
    assert |a| == 0 <==> |b| == 0 by {
      if |a| > 0 { assert a[0] in b; }
      if |b| > 0 { assert b[0] in a; }
    }
    if |a| > 0 {
      if a[0] != b[0] {
        assert a[0] in b;
        var j :| 0 <= j < |b| && b[j] == a[0];
        assert b[0] in a;
        var i :| 0 <= i < |a| && a[i] == b[0];
        StrLessAsymmetric(a[0], b[0]);
        assert false;
      }
      forall t ensures t in a[1..] <==> t in b[1..] {
        if t in a[1..] {
          var i :| 0 < i < |a| && a[i] == t;
          StrLessIrreflexive(t);
          assert t in b && t != b[0];
          assert b == [b[0]] + b[1..];
        }
        if t in b[1..] {
          var j :| 0 < j < |b| && b[j] == t;
          StrLessIrreflexive(t);
          assert t in a && t != a[0];
          assert a == [a[0]] + a[1..];
        }
      }
      AscendingUnique(a[1..], b[1..]);
      assert a == [a[0]] + a[1..] && b == [b[0]] + b[1..];
    }
  }

  /** Pitchnames is sorted(set(notes)): every strictly ascending list of
      exactly the tokens of notes is Pitchnames(notes). */
  lemma PitchnamesIsSortedSet(notes: seq<string>, s: seq<string>)
    requires StrictlyAscending(s)
    requires forall t :: t in s <==> t in notes
    ensures s == Pitchnames(notes)
  {
    AscendingUnique(s, Pitchnames(notes));
  }

  /** The vocabulary depends only on which tokens occur, not on their order
      or multiplicity. */
  lemma PitchnamesDeterministic(notes1: seq<string>, notes2: seq<string>)
    requires forall t :: t in notes1 <==> t in notes2
    ensures Pitchnames(notes1) == Pitchnames(notes2)
  {
    AscendingUnique(Pitchnames(notes1), Pitchnames(notes2));
  }

  /** note_to_int, numbering the names of p by position: every name of p
      is a key, mapped to a position that holds it. */
  function NoteToInt(p: seq<string>): (m: map<string, nat>)
    ensures forall t :: t in m <==> t in p
    ensures forall t | t in m :: m[t] < |p| && p[m[t]] == t
  {
    if |p| == 0 then map[]
    else
      assert p == p[..|p| - 1] + [p[|p| - 1]];
      NoteToInt(p[..|p| - 1])[p[|p| - 1] := |p| - 1]
  }

  /** A later entry of the dict comprehension overwrites an earlier one, so a
      name that occurs several times is mapped to its last position. */
  lemma {:induction false} NoteToIntLastOccurrence(p: seq<string>, t: string, j: nat)
    requires t in p && j < |p| && p[j] == t
    ensures NoteToInt(p)[t] >= j
  {
    var n := |p| - 1;
    if j < n && p[n] != t {
      assert p[..n][j] == t;
      NoteToIntLastOccurrence(p[..n], t, j);
    }
  }

  /** Over a list without repetitions, note_to_int[p[k]] == k. */
  lemma NoteToIntOfDistinct(p: seq<string>)
    requires Distinct(p)
    ensures forall k | 0 <= k < |p| :: p[k] in NoteToInt(p) && NoteToInt(p)[p[k]] == k
  {
    forall k | 0 <= k < |p| ensures p[k] in NoteToInt(p) && NoteToInt(p)[p[k]] == k {
      var m := NoteToInt(p);
      assert p[k] in p;
    }
  }

  /** note_to_int over the vocabulary numbers the tokens 0 .. n_vocab - 1 in
      sorted order, and different tokens get different indices. */
  lemma VocabularyIndices(notes: seq<string>)
    ensures forall k | 0 <= k < |Pitchnames(notes)| ::
              NoteToInt(Pitchnames(notes))[Pitchnames(notes)[k]] == k
    ensures forall t, u | t in NoteToInt(Pitchnames(notes)) && u in NoteToInt(Pitchnames(notes)) && t != u ::
              NoteToInt(Pitchnames(notes))[t] != NoteToInt(Pitchnames(notes))[u]
  {
    AscendingIsDistinct(Pitchnames(notes));
    NoteToIntOfDistinct(Pitchnames(notes));
  }

  /** Every token of ts looked up in a mapping that has them all: one index
      per token, equal tokens getting equal indices. */
  function Lookup(m: map<string, nat>, ts: seq<string>): (xs: seq<nat>)
    requires forall t | t in ts :: t in m
    ensures |xs| == |ts|
    ensures forall i, j | 0 <= i < |ts| && 0 <= j < |ts| && ts[i] == ts[j] :: xs[i] == xs[j]
  {
    seq(|ts|, k requires 0 <= k < |ts| => m[ts[k]])
  }

  /** Looking up a slice is slicing the lookup. */
  lemma LookupSlice(m: map<string, nat>, ts: seq<string>, a: nat, b: nat)
    requires forall t | t in ts :: t in m
    requires a <= b <= |ts|
    ensures Lookup(m, ts[a..b]) == Lookup(m, ts)[a..b]
  {
  }

  /** The token stream as vocabulary indices: each index lies below n_vocab. */
  function Encode(notes: seq<string>): (xs: seq<nat>)
    ensures |xs| == |notes|
    ensures forall k | 0 <= k < |notes| :: xs[k] < |Pitchnames(notes)|
  {
    Lookup(NoteToInt(Pitchnames(notes)), notes)
  }

  /** Looking each index of the encoded stream up in the vocabulary gives
      back the token stream. */
  lemma EncodeDecodes(notes: seq<string>)
    ensures forall k | 0 <= k < |notes| :: Pitchnames(notes)[Encode(notes)[k]] == notes[k]
  {
    forall k | 0 <= k < |notes| ensures Pitchnames(notes)[Encode(notes)[k]] == notes[k] {
      assert notes[k] in notes;
    }
  }

  // ---------------------------------------------------------------------
  // Windows, normalisation and one-hot targets
  // ---------------------------------------------------------------------

  /** Every run of S consecutive entries of xs that has an entry after it,
      first run first: the input windows of the training pairs. */
  function Windows(xs: seq<nat>, S: nat): (r: seq<seq<nat>>)
    ensures |r| == if |xs| > S then |xs| - S else 0
    ensures forall k | 0 <= k < |r| :: |r[k]| == S
  {
    if |xs| <= S then [] else [xs[..S]] + Windows(xs[1..], S)
  }

  /** The entry after each window: the targets of the training pairs. */
  function Targets(xs: seq<nat>, S: nat): (r: seq<nat>)
    ensures |r| == if |xs| > S then |xs| - S else 0
  {
    if |xs| <= S then [] else [xs[S]] + Targets(xs[1..], S)
  }

  /** There are max(0, |xs| - S) pairs; pair i is xs[i..i+S] followed by xs[i+S]. */
  lemma WindowsAt(xs: seq<nat>, S: nat)
    ensures |Windows(xs, S)| == |Targets(xs, S)| == (if |xs| > S then |xs| - S else 0)
    ensures forall i | 0 <= i < |Windows(xs, S)| ::
              Windows(xs, S)[i] == xs[i..i + S] && Targets(xs, S)[i] == xs[i + S]
  {
    EachWindow(xs, S);
    EachTarget(xs, S);
  }

  lemma {:induction false} EachWindow(xs: seq<nat>, S: nat)
    ensures |Windows(xs, S)| == (if |xs| > S then |xs| - S else 0)
    ensures forall i | 0 <= i < |Windows(xs, S)| :: Windows(xs, S)[i] == xs[i..i + S]
  {
    if |xs| > S {
      var rest := xs[1..];
      EachWindow(rest, S);
      var w := Windows(xs, S);
      assert w == [xs[..S]] + Windows(rest, S);
      forall i | 0 <= i < |w| ensures w[i] == xs[i..i + S] {
        if i > 0 {
          SliceOfTail(xs, i - 1, i - 1 + S);
        }
      }
    }
  }

  lemma {:induction false} EachTarget(xs: seq<nat>, S: nat)
    ensures |Targets(xs, S)| == (if |xs| > S then |xs| - S else 0)
    ensures forall i | 0 <= i < |Targets(xs, S)| :: Targets(xs, S)[i] == xs[i + S]
  {
    if |xs| > S {
      var rest := xs[1..];
      EachTarget(rest, S);
      var t := Targets(xs, S);
      assert t == [xs[S]] + Targets(rest, S);
      forall i | 0 <= i < |t| ensures t[i] == xs[i + S] {
        if i > 0 {
          assert t[i] == rest[i - 1 + S];
        }
      }
    }
  }

  /** A slice of the tail is a slice of the whole, one further on. */
  lemma SliceOfTail(xs: seq<nat>, a: nat, b: nat)
    requires a <= b < |xs|
    ensures xs[1..][a..b] == xs[a + 1..b + 1]
  {
  }

  /** Normalisation: each index divided by the vocabulary size; scaling
      back by the size gives the index. */
  function Normalise(window: seq<int>, n: nat): (r: seq<real>)
    requires n > 0
    ensures |r| == |window|
    ensures forall k | 0 <= k < |window| :: r[k] * (n as real) == window[k] as real
  {
    seq(|window|, k requires 0 <= k < |window| => window[k] as real / n as real)
  }

  /** Indices of the vocabulary normalise into [0, 1). */
  lemma NormaliseInUnitInterval(window: seq<int>, n: nat)
    requires n > 0
    requires forall k | 0 <= k < |window| :: 0 <= window[k] < n
    ensures forall k | 0 <= k < |window| :: 0.0 <= Normalise(window, n)[k] < 1.0
  {
    forall k | 0 <= k < |window| ensures 0.0 <= Normalise(window, n)[k] < 1.0 {
      var r, size := Normalise(window, n)[k], n as real;
      assert r * size == window[k] as real;
      if r < 0.0 {
        ProductOfPositives(-r, size);
      } else if r >= 1.0 {
        ProductOfNonNegatives(r - 1.0, size);
      }
    }
  }

  lemma ProductOfPositives(x: real, y: real)
    requires x > 0.0 && y > 0.0
    ensures x * y > 0.0
  {
  }

  lemma ProductOfNonNegatives(x: real, y: real)
    requires x >= 0.0 && y >= 0.0
    ensures x * y >= 0.0
  {
  }

  /** The one-hot row of class t over n classes: n entries, a one exactly at
      position t, zeros everywhere else. */
  function OneHot(t: nat, n: nat): (r: seq<real>)
    ensures |r| == n
    ensures forall j | 0 <= j < n :: (r[j] == 1.0 <==> j == t) && (r[j] != 1.0 ==> r[j] == 0.0)
  {
    seq(n, j requires 0 <= j < n => if j == t then 1.0 else 0.0)
  }

  function Sum(s: seq<real>): real
  {
    if |s| == 0 then 0.0 else s[0] + Sum(s[1..])
  }

  lemma {:induction false} SumOfIndicator(s: seq<real>, t: int)
    requires forall j | 0 <= j < |s| :: s[j] == if j == t then 1.0 else 0.0
    ensures Sum(s) == if 0 <= t < |s| then 1.0 else 0.0
  {
    if |s| > 0 {
      SumOfIndicator(s[1..], t - 1);
    }
  }

  /** A one-hot row for a class below n has length n, a single one at the
      class and zeros elsewhere, so its entries sum to exactly one. */
  lemma OneHotSumsToOne(t: nat, n: nat)
    requires t < n
    ensures |OneHot(t, n)| == n && OneHot(t, n)[t] == 1.0
    ensures forall j | 0 <= j < n && j != t :: OneHot(t, n)[j] == 0.0
    ensures Sum(OneHot(t, n)) == 1.0
  {
    SumOfIndicator(OneHot(t, n), t);
  }

  /** network_input of prepare_sequences: every window of the encoded
      stream that has a token after it, divided by n_vocab. */
  function NetworkInput(notes: seq<string>, sequenceLength: nat): (r: seq<seq<real>>)
    ensures |r| == if |notes| > sequenceLength then |notes| - sequenceLength else 0
    ensures forall k | 0 <= k < |r| :: |r[k]| == sequenceLength
  {
    var n := |Pitchnames(notes)|;
    var windows := Windows(Encode(notes), sequenceLength);
    assert |notes| > 0 ==> notes[0] in Pitchnames(notes);
    if n == 0 then []
    else seq(|windows|, k requires 0 <= k < |windows| => Normalise(windows[k], n))
  }

  /** network_output of prepare_sequences: the token after each window,
      one-hot over n_vocab classes. */
  function NetworkOutput(notes: seq<string>, sequenceLength: nat): (r: seq<seq<real>>)
    ensures |r| == if |notes| > sequenceLength then |notes| - sequenceLength else 0
    ensures forall k | 0 <= k < |r| :: |r[k]| == |Pitchnames(notes)|
  {
    var targets := Targets(Encode(notes), sequenceLength);
    seq(|targets|, k requires 0 <= k < |targets| => OneHot(targets[k], |Pitchnames(notes)|))
  }

  /** What prepare_sequences returns: the input rows, the one-hot output
      rows, n_vocab and the vocabulary. */
  datatype Prepared = Prepared(networkInput: seq<seq<real>>, networkOutput: seq<seq<real>>, nVocab: nat, pitchnames: seq<string>)

  /** Why prepare_sequences raises: one-hot encoding over zero classes makes
      Keras infer the class count from the largest target, and there is no
      target to take the largest of. */
  datatype PrepareError = NoClasses

  /** prepare_sequences: the vocabulary, then one pair per window of
      sequenceLength tokens that has a token after it, with the window
      normalised and the following token one-hot encoded. An empty token
      stream leaves nothing to one-hot encode over, and the call raises. */
  method PrepareSequences(notes: seq<string>, sequenceLength: nat) returns (r: Result<Prepared, PrepareError>)
    ensures r.Failure? <==> |notes| == 0
    ensures r.Success? ==>
              r.value.pitchnames == Pitchnames(notes) && r.value.nVocab == |r.value.pitchnames| &&
              r.value.networkInput == NetworkInput(notes, sequenceLength) &&
              r.value.networkOutput == NetworkOutput(notes, sequenceLength)
  {
    var pitchnames := Pitchnames(notes);
    var noteToInt := NoteToInt(pitchnames);
    var windows, targets := CollectPairs(notes, sequenceLength, noteToInt);
    var nVocab := |pitchnames|;
    assert |notes| > 0 ==> notes[0] in pitchnames;
    if nVocab == 0 {
      // The windows are empty too, so dividing them by n_vocab raises nothing.
      return Failure(NoClasses);
    }
    var networkInput := seq(|windows|, k requires 0 <= k < |windows| => Normalise(windows[k], nVocab));
    var networkOutput := seq(|targets|, k requires 0 <= k < |targets| => OneHot(targets[k], nVocab));
    r := Success(Prepared(networkInput, networkOutput, nVocab, pitchnames));
  }

  /** The loop of prepare_sequences: for each start i that leaves a token
      after a window of S, append the indices of the S tokens from i and the
      index of the token that follows them. */
  method CollectPairs(notes: seq<string>, sequenceLength: nat, noteToInt: map<string, nat>)
    returns (windows: seq<seq<nat>>, targets: seq<nat>)
    requires forall t | t in notes :: t in noteToInt
    ensures |windows| == |targets| == if |notes| > sequenceLength then |notes| - sequenceLength else 0
    ensures windows == Windows(Lookup(noteToInt, notes), sequenceLength)
    ensures targets == Targets(Lookup(noteToInt, notes), sequenceLength)
  {
    ghost var encoded := Lookup(noteToInt, notes);
    windows, targets := [], [];
    var i := 0;
    while i < |notes| - sequenceLength
      invariant 0 <= i && (i == 0 || i <= |notes| - sequenceLength)
      invariant |windows| == |targets| == i
      invariant forall k | 0 <= k < i :: windows[k] == encoded[k..k + sequenceLength]
      invariant forall k | 0 <= k < i :: targets[k] == encoded[k + sequenceLength]
    {
      var sequenceIn := notes[i..i + sequenceLength];
      var sequenceOut := notes[i + sequenceLength];
      LookupSlice(noteToInt, notes, i, i + sequenceLength);
      windows := windows + [Lookup(noteToInt, sequenceIn)];
      targets := targets + [noteToInt[sequenceOut]];
      i := i + 1;
    }
    WindowsAt(encoded, sequenceLength);
  }

  /** There is one training pair per window that has a token after it; pair
      i is window i of the encoded stream divided by n_vocab, and the token
      after it one-hot over n_vocab classes. */
  lemma PreparedPairs(notes: seq<string>, sequenceLength: nat)
    ensures |NetworkInput(notes, sequenceLength)| == |NetworkOutput(notes, sequenceLength)| ==
              if |notes| > sequenceLength then |notes| - sequenceLength else 0
    ensures forall i | 0 <= i < |NetworkInput(notes, sequenceLength)| ::
              |Pitchnames(notes)| > 0 &&
              NetworkInput(notes, sequenceLength)[i] ==
                Normalise(Encode(notes)[i..i + sequenceLength], |Pitchnames(notes)|) &&
              NetworkOutput(notes, sequenceLength)[i] == OneHot(Encode(notes)[i + sequenceLength], |Pitchnames(notes)|)
  {
    var n := |Pitchnames(notes)|;
    var encoded := Encode(notes);
    WindowsAt(encoded, sequenceLength);
    assert |notes| > 0 ==> notes[0] in Pitchnames(notes);
    var input, output := NetworkInput(notes, sequenceLength), NetworkOutput(notes, sequenceLength);
    forall i | 0 <= i < |input|
      ensures n > 0 && input[i] == Normalise(encoded[i..i + sequenceLength], n)
      ensures output[i] == OneHot(encoded[i + sequenceLength], n)
    {
      assert Windows(encoded, sequenceLength)[i] == encoded[i..i + sequenceLength];
    }
  }

  /** Every input entry lies in [0, 1) and every output row has n_vocab
      entries summing to one. */
  lemma PreparedPairsInRange(notes: seq<string>, sequenceLength: nat)
    ensures forall i, j | 0 <= i < |NetworkInput(notes, sequenceLength)| && 0 <= j < |NetworkInput(notes, sequenceLength)[i]| ::
              0.0 <= NetworkInput(notes, sequenceLength)[i][j] < 1.0
    ensures forall i | 0 <= i < |NetworkOutput(notes, sequenceLength)| ::
              |NetworkOutput(notes, sequenceLength)[i]| == |Pitchnames(notes)| &&
              Sum(NetworkOutput(notes, sequenceLength)[i]) == 1.0
  {
    InputsInUnitInterval(notes, sequenceLength);
    OutputRowsSumToOne(notes, sequenceLength);
  }

  lemma InputsInUnitInterval(notes: seq<string>, sequenceLength: nat)
    ensures forall i, j | 0 <= i < |NetworkInput(notes, sequenceLength)| && 0 <= j < |NetworkInput(notes, sequenceLength)[i]| ::
              0.0 <= NetworkInput(notes, sequenceLength)[i][j] < 1.0
  {
    var n := |Pitchnames(notes)|;
    var encoded := Encode(notes);
    var input := NetworkInput(notes, sequenceLength);
    PreparedPairs(notes, sequenceLength);
    forall i | 0 <= i < |input| ensures forall j | 0 <= j < |input[i]| :: 0.0 <= input[i][j] < 1.0 {
      var window := encoded[i..i + sequenceLength];
      assert input[i] == Normalise(window, n);
      forall j | 0 <= j < |window| ensures window[j] < n {
        assert window[j] == encoded[i + j];
      }
      NormaliseInUnitInterval(window, n);
    }
  }

  lemma OutputRowsSumToOne(notes: seq<string>, sequenceLength: nat)
    ensures forall i | 0 <= i < |NetworkOutput(notes, sequenceLength)| ::
              |NetworkOutput(notes, sequenceLength)[i]| == |Pitchnames(notes)| &&
              Sum(NetworkOutput(notes, sequenceLength)[i]) == 1.0
  {
    var n := |Pitchnames(notes)|;
    var encoded := Encode(notes);
    var output := NetworkOutput(notes, sequenceLength);
    PreparedPairs(notes, sequenceLength);
    forall i | 0 <= i < |output| ensures |output[i]| == n && Sum(output[i]) == 1.0 {
      assert output[i] == OneHot(encoded[i + sequenceLength], n);
      OneHotSumsToOne(encoded[i + sequenceLength], n);
    }
  }

  /** The stream C4 E4 G4 C4 E4 G4 C4 with windows of three gives four
      pairs; the first is the indices of C4, E4, G4 against C4. */
  lemma PrepareScenario(notes: seq<string>)
    requires notes == ["C4", "E4", "G4", "C4", "E4", "G4", "C4"]
    ensures |NetworkInput(notes, 3)| == |NetworkOutput(notes, 3)| == 4
    ensures NetworkInput(notes, 3)[0] == Normalise([0, 1, 2], 3)
    ensures NetworkOutput(notes, 3)[0] == OneHot(0, 3)
  {
    assert StrLess("C4", "E4") && StrLess("E4", "G4");
    ThreeTokenEncoding(notes, "C4", "E4", "G4");
    PreparedPairs(notes, 3);
    assert Encode(notes)[0..3] == [0, 1, 2];
  }

  /** A stream a b c a b c a over three tokens in ascending order has the
      vocabulary a, b, c, and its encoding begins 0 1 2 0. */
  lemma ThreeTokenEncoding(notes: seq<string>, a: string, b: string, c: string)
    requires StrLess(a, b) && StrLess(b, c)
    requires notes == [a, b, c, a, b, c, a]
    ensures Pitchnames(notes) == [a, b, c]
    ensures Encode(notes)[0] == 0 && Encode(notes)[1] == 1 && Encode(notes)[2] == 2 && Encode(notes)[3] == 0
  {
    StrLessTransitive(a, b, c);
    PitchnamesIsSortedSet(notes, [a, b, c]);
    StrLessIrreflexive(a);
    StrLessIrreflexive(b);
    StrLessAsymmetric(a, c);
    FirstIndices(notes, [a, b, c]);
  }

  /** With vocabulary a, b, c, a stream beginning a b c a encodes as 0 1 2 0. */
  lemma FirstIndices(notes: seq<string>, vocabulary: seq<string>)
    requires |vocabulary| == 3 && Distinct(vocabulary) && Pitchnames(notes) == vocabulary
    requires |notes| >= 4
    requires notes[0] == vocabulary[0] && notes[1] == vocabulary[1] && notes[2] == vocabulary[2] && notes[3] == vocabulary[0]
    ensures Encode(notes)[0] == 0 && Encode(notes)[1] == 1 && Encode(notes)[2] == 2 && Encode(notes)[3] == 0
  {
    EncodedAt(notes, vocabulary, 0, 0);
    EncodedAt(notes, vocabulary, 1, 1);
    EncodedAt(notes, vocabulary, 2, 2);
    EncodedAt(notes, vocabulary, 3, 0);
  }

  /** Over a vocabulary without repetitions, a token equal to entry j
      encodes as j. */
  lemma EncodedAt(notes: seq<string>, vocabulary: seq<string>, k: nat, j: nat)
    requires Distinct(vocabulary) && Pitchnames(notes) == vocabulary
    requires k < |notes| && j < |vocabulary| && notes[k] == vocabulary[j]
    ensures Encode(notes)[k] == j
  {
    NoteToIntOfDistinct(vocabulary);
    assert Encode(notes)[k] == NoteToInt(vocabulary)[vocabulary[j]];
  }


}
