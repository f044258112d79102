/**
 * The closing-price engine: phase classification from the mean open, the
 * phase-1 key backtest and selection, the phase-2 Fibonacci retracement
 * rule, the keyed phase-1 blends, the entry trigger and the prediction
 * ledger kept by `PredictionEngine`.
 */
module ClosePrediction {
  import opened Market
  import opened KeyFunctions

  /** Numeric-scale regime of the instrument. */
  datatype Phase = Phase1 | Phase2

  // ---------------------------------------------------------------------
  // Phase classification

  function SumOpen(data: seq<Candle>): real {
    if |data| == 0 then 0.0 else SumOpen(data[..|data| - 1]) + data[|data| - 1].open
  }

  function MeanOpen(data: seq<Candle>): real
    requires |data| > 0
  {
    SumOpen(data) / |data| as real
  }

  /** Phase 1 by default for no data; otherwise phase 2 exactly when the mean open exceeds 1000. */
  function PhaseOf(data: seq<Candle>): (p: Phase)
    ensures |data| == 0 ==> p == Phase1
    ensures |data| > 0 ==> (p == Phase2 <==> MeanOpen(data) > 1000.0)
  {
    if |data| == 0 then Phase1 else if MeanOpen(data) > 1000.0 then Phase2 else Phase1
  }

  lemma {:induction false} SumOpenAbove(data: seq<Candle>, bound: real)
    requires |data| > 0
    requires forall i :: 0 <= i < |data| ==> data[i].open > bound
    ensures SumOpen(data) > bound * |data| as real
  {
    if |data| > 1 {
      SumOpenAbove(data[..|data| - 1], bound);
    }
  }

  lemma {:induction false} SumOpenAtMost(data: seq<Candle>, bound: real)
    requires forall i :: 0 <= i < |data| ==> data[i].open <= bound
    ensures SumOpen(data) <= bound * |data| as real
  {
    if |data| > 0 {
      SumOpenAtMost(data[..|data| - 1], bound);
    }
  }

  /**
   * A history whose every open is above 1000 (an instrument quoted near 9400)
   * is phase 2; one whose every open is at most 1000 (quoted near 0.9) is phase 1.
   */
  lemma UniformScalePhase(data: seq<Candle>)
    requires |data| > 0
    ensures (forall i :: 0 <= i < |data| ==> data[i].open > 1000.0) ==> PhaseOf(data) == Phase2
    ensures (forall i :: 0 <= i < |data| ==> data[i].open <= 1000.0) ==> PhaseOf(data) == Phase1
  {
    if forall i :: 0 <= i < |data| ==> data[i].open > 1000.0 {
      SumOpenAbove(data, 1000.0);
      QuotientBounds(SumOpen(data), |data| as real, 1000.0);
    }
    if forall i :: 0 <= i < |data| ==> data[i].open <= 1000.0 {
      SumOpenAtMost(data, 1000.0);
      QuotientBounds(SumOpen(data), |data| as real, 1000.0);
    }
  }

  /** Dividing by a positive count keeps a total's side of bound times the count. */
  lemma QuotientBounds(total: real, n: real, bound: real)
    requires n > 0.0
    ensures total > bound * n ==> total / n > bound
    ensures total <= bound * n ==> total / n <= bound
  {
    var q := total / n;
    assert q * n == total;
    if q <= bound {
      assert q * n <= bound * n;
    } else {
      assert q * n > bound * n;
    }
  }

  // ---------------------------------------------------------------------
  // Phase-1 key backtest

  /**
   * A key function as the backtest receives it: the scalar it gives for the
   * prior candle's open (value and decimal text), or None where it raises.
   */
  type KeyFunction = (real, string) -> Option<real>

  function KeyFunctionOf(key: Key): KeyFunction {
    (open: real, text: string) => KeyValue(key, open, text)
  }

  /**
   * One consecutive pair: the key applied to the prior candle's open predicts
   * green when its value is above 0.5; it is a hit when that matches the
   * current candle's colour. None when the key cannot be evaluated.
   */
  function PairHit(f: KeyFunction, prior: Candle, current: Candle): (h: Option<bool>)
    ensures h.None? <==> f(prior.open, prior.openText).None?
    ensures h.Some? ==>
              (h.value <==> (f(prior.open, prior.openText).value > 0.5) == (current.close > current.open))
  {
    match f(prior.open, prior.openText)
    case None => None
    case Some(v) => Some((v > 0.5) == (current.close > current.open))
  }

  datatype Tally = Tally(hits: nat, total: nat)

  /** The tally after one more pair: a skipped pair changes nothing, a usable one counts, a hit counts twice. */
  function TallyStep(t: Tally, h: Option<bool>): Tally {
    match h
    case None => t
    case Some(hit) => Tally(if hit then t.hits + 1 else t.hits, t.total + 1)
  }

  /** Hits and usable pairs among the pairs (data[i-1], data[i]) with 1 <= i < n. */
  function TallyUpTo(data: seq<Candle>, f: KeyFunction, n: nat): (t: Tally)
    requires n <= |data|
    ensures t.hits <= t.total
    ensures n > 0 ==> t.total <= n - 1
    ensures n == 0 ==> t.total == 0
    decreases n
  {
    if n <= 1 then Tally(0, 0)
    else
      TallyStep(TallyUpTo(data, f, n - 1), PairHit(f, data[n - 2], data[n - 1]))
  }

  /** The integer-part key never fails, so every one of the n - 1 pairs is usable. */
  lemma {:induction false} LastIntegerDigitUsesEveryPair(data: seq<Candle>, n: nat)
    requires 1 <= n <= |data|
    ensures TallyUpTo(data, KeyFunctionOf(LastIntegerDigit), n).total == n - 1
  {
    if n > 1 {
      LastIntegerDigitUsesEveryPair(data, n - 1);
      assert PairHit(KeyFunctionOf(LastIntegerDigit), data[n - 2], data[n - 1]).Some?;
    }
  }

  lemma RatioInUnitInterval(a: nat, b: nat)
    requires 0 < b && a <= b
    ensures 0.0 <= a as real / b as real <= 1.0
  {
    var q := a as real / b as real;
    assert q * b as real == a as real;
  }

  /** Share of hits among the usable pairs, 0 when there is none. */
  function HitRate(t: Tally): (r: real)
    requires t.hits <= t.total
    ensures 0.0 <= r <= 1.0
    ensures t.total == 0 ==> r == 0.0
    ensures 0 < t.total && t.hits == t.total ==> r == 1.0
  {
    if t.total > 0 then
      RatioInUnitInterval(t.hits, t.total);
      t.hits as real / t.total as real
    else 0.0
  }

  /** Backtest score of a key function: 0 below 5 candles, else the hit rate over the usable pairs. */
  function Score(data: seq<Candle>, f: KeyFunction): (s: real)
    ensures 0.0 <= s <= 1.0
    ensures |data| < 5 ==> s == 0.0
  {
    if |data| < 5 then 0.0 else HitRate(TallyUpTo(data, f, |data|))
  }

  /** The backtest score of one of the four keys. */
  function KeyScore(data: seq<Candle>, key: Key): real {
    Score(data, KeyFunctionOf(key))
  }

  /** The score of a key function over the history, computed pair by pair. */
  method TestKey(data: seq<Candle>, f: KeyFunction) returns (score: real)
    ensures score == Score(data, f)
  {
    if |data| < 5 {
      return 0.0;
    }
    var hits: nat, total: nat := 0, 0;
    for i := 1 to |data|
      invariant Tally(hits, total) == TallyUpTo(data, f, i)
    {
      // The body of the source's try block: None when the key raises on the prior open.
      var outcome := PairHit(f, data[i - 1], data[i]);
      if outcome.Some? {
        if outcome.value {
          hits := hits + 1;
        }
        total := total + 1;
      }
    }
    score := HitRate(Tally(hits, total));
  }

  // ---------------------------------------------------------------------
  // Phase-1 key selection

  datatype Choice = Choice(key: Key, score: real)

  /** Position of a key in the evaluation order. */
  function KeyIndex(k: Key): (i: nat)
    ensures i < |KeyOrder| && KeyOrder[i] == k
  {
    match k
    case SumLast3 => 0
    case FirstDigitParity => 1
    case DecimalPattern => 2
    case LastIntegerDigit => 3
  }

  /** The backtest score of every key over one history. */
  function ScoresOver(data: seq<Candle>): Key -> real {
    k => KeyScore(data, k)
  }

  /** The running best after the first n keys: a later key replaces it only with a strictly greater score. */
  function BestOf(score: Key -> real, n: nat): Choice
    requires n <= |KeyOrder|
  {
    if n == 0 then Choice(SumLast3, 0.0)
    else
      var c := BestOf(score, n - 1);
      var s := score(KeyOrder[n - 1]);
      if s > c.score then Choice(KeyOrder[n - 1], s) else c
  }

  /**
   * For nonnegative scores, the running best after n keys holds its own
   * score, is among the first n keys, scores at least every one of them and
   * strictly more than every key before it.
   */
  lemma {:induction false} BestOfIsFirstMaximum(score: Key -> real, n: nat)
    requires 1 <= n <= |KeyOrder|
    requires forall k :: score(k) >= 0.0
    ensures BestOf(score, n).score == score(BestOf(score, n).key)
    ensures KeyIndex(BestOf(score, n).key) < n
    ensures forall j :: 0 <= j < n ==> score(KeyOrder[j]) <= BestOf(score, n).score
    ensures forall j :: 0 <= j < KeyIndex(BestOf(score, n).key) ==>
              score(KeyOrder[j]) < BestOf(score, n).score
  {
    if n > 1 {
      BestOfIsFirstMaximum(score, n - 1);
    }
  }

  /** Fewer than 10 candles give the default key; otherwise the best of the backtest. */
  function DiscoveredKey(data: seq<Candle>): Key {
    if |data| < 10 then SumLast3 else BestOf(ScoresOver(data), |KeyOrder|).key
  }

  /**
   * With at least 10 candles the discovered key has the greatest score, every
   * key evaluated before it scores strictly less, and when no key scores above
   * zero the default key is kept.
   */
  lemma DiscoveredKeyIsFirstBest(data: seq<Candle>)
    requires |data| >= 10
    ensures forall k :: KeyScore(data, k) <= KeyScore(data, DiscoveredKey(data))
    ensures forall j :: 0 <= j < KeyIndex(DiscoveredKey(data)) ==>
              KeyScore(data, KeyOrder[j]) < KeyScore(data, DiscoveredKey(data))
    ensures (forall k :: KeyScore(data, k) == 0.0) ==> DiscoveredKey(data) == SumLast3
  {
    var score := ScoresOver(data);
    BestOfIsFirstMaximum(score, |KeyOrder|);
    forall k
      ensures KeyScore(data, k) <= KeyScore(data, DiscoveredKey(data))
    {
      assert KeyOrder[KeyIndex(k)] == k;
    }
    assert KeyOrder[0] == SumLast3;
  }

  /** The backtest over all keys, keeping the strictly best score. */
  method SelectBestKey(data: seq<Candle>) returns (best: Key, bestScore: real)
    ensures Choice(best, bestScore) == BestOf(ScoresOver(data), |KeyOrder|)
  {
    best, bestScore := SumLast3, 0.0;
    for i := 0 to |KeyOrder|
      invariant Choice(best, bestScore) == BestOf(ScoresOver(data), i)
    {
      var score := TestKey(data, KeyFunctionOf(KeyOrder[i]));
      if score > bestScore {
        best, bestScore := KeyOrder[i], score;
      }
    }
  }

  // ---------------------------------------------------------------------
  // Closing-price formulas

  /**
   * Phase 2: an open below the midpoint of the range so far retraces 0.618 of
   * the way up to the high; an open at or above it, 0.618 of the way down to the low.
   */
  function FibonacciAmplitude(open: real, high: real, low: real): (r: real)
    ensures low <= open <= high ==> low <= r <= high
    ensures open < (high + low) / 2.0 ==> (r > open <==> high > open)
    ensures open >= (high + low) / 2.0 ==> (r < open <==> open > low)
  {
    var middle := (high + low) / 2.0;
    if open < middle then open + 0.618 * (high - open)
    else open - 0.618 * (open - low)
  }

  /** For an open within the range, the phase-2 colour is green exactly when the open is below the midpoint. */
  lemma FibonacciColourFollowsMidpoint(open: real, high: real, low: real)
    requires low <= open <= high
    ensures ColorOf(FibonacciAmplitude(open, high, low), open) == Green <==> open < (high + low) / 2.0
  {
  }

  /** An open exactly at the midpoint takes the bearish branch. */
  lemma FibonacciExamples()
    ensures FibonacciAmplitude(10.0, 20.0, 0.0) == 3.82
    ensures FibonacciAmplitude(9.0, 20.0, 0.0) == 15.798
    ensures FibonacciAmplitude(15.0, 20.0, 0.0) == 5.73
    ensures FibonacciAmplitude(10.0, 10.0, 10.0) == 10.0
  {
  }

  /** Phase 1: the blend of the active key, or the plain mean for no key. */
  function PredictPhase1(open: real, high: real, low: real, key: Option<Key>): (r: real)
    ensures low <= high ==> Min(open, low) <= r <= Max(high, open)
    ensures key.None? ==> r == (open + high + low) / 3.0
  {
    match key
    case Some(SumLast3) => low + (high - low) * 0.6
    case Some(FirstDigitParity) => (open + high + low) / 3.0
    case Some(DecimalPattern) => low + (high - low) * 0.382
    case Some(LastIntegerDigit) => open + (high - open) * 0.5
    case None => (open + high + low) / 3.0
  }

  /** The range-blend keys stay within the range so far whatever the open. */
  lemma RangeKeysStayInRange(open: real, high: real, low: real)
    requires low <= high
    ensures low <= PredictPhase1(open, high, low, Some(SumLast3)) <= high
    ensures low <= PredictPhase1(open, high, low, Some(DecimalPattern)) <= high
    ensures PredictPhase1(open, high, low, Some(DecimalPattern)) <= PredictPhase1(open, high, low, Some(SumLast3))
  {
  }

  function PredictClose(phase: Phase, key: Option<Key>, open: real, high: real, low: real): real {
    if phase == Phase1 then PredictPhase1(open, high, low, key) else FibonacciAmplitude(open, high, low)
  }

  /** With no phase detected yet the engine predicts as phase 2. */
  function EffectivePhase(detected: Option<Phase>): (p: Phase)
    ensures detected.Some? ==> p == detected.value
    ensures detected.None? ==> p == Phase2
  {
    if detected.Some? then detected.value else Phase2
  }

  datatype Algorithm = Phase1Keyed(key: Option<Key>) | FibonacciAlgorithm

  /** One prediction, as the engine returns it and stores it in its history. */
  datatype Prediction = Prediction(
    predictedClose: real,
    color: Color,
    position: Position,
    phaseUsed: Phase,
    algorithm: Algorithm,
    openUsed: real,
    highUsed: real,
    lowUsed: real)

  /** The prediction for a phase, a key and a partial candle. */
  function PredictionFor(phase: Phase, key: Option<Key>, open: real, high: real, low: real): (p: Prediction)
    ensures p.predictedClose == PredictClose(phase, key, open, high, low)
    ensures p.color == Green <==> p.predictedClose > open
    ensures p.position == Call <==> p.color == Green
    ensures p.phaseUsed == phase
    ensures p.algorithm == if phase == Phase1 then Phase1Keyed(key) else FibonacciAlgorithm
    ensures p.openUsed == open && p.highUsed == high && p.lowUsed == low
  {
    var close := PredictClose(phase, key, open, high, low);
    var color := ColorOf(close, open);
    Prediction(close, color, PositionOf(color), phase,
               if phase == Phase1 then Phase1Keyed(key) else FibonacciAlgorithm,
               open, high, low)
  }

  /** For a partial candle within its range, the predicted close lies in that range (phase 2) or between the open and the range (phase 1). */
  lemma PredictionWithinRange(phase: Phase, key: Option<Key>, open: real, high: real, low: real)
    requires low <= open <= high
    ensures low <= PredictionFor(phase, key, open, high, low).predictedClose <= high
  {
  }

  // ---------------------------------------------------------------------
  // Entry trigger

  const DefaultTriggerOffset: int := 16

  datatype EntryTrigger = EntryTrigger(trigger: real, predicted: real, direction: Position, color: Color, offset: int)

  /** A green prediction triggers a CALL offset points below it; a red one a PUT offset points above. */
  function EntryTriggerFor(p: Prediction, offset: int := DefaultTriggerOffset): (t: EntryTrigger)
    ensures t.direction == Call <==> p.color == Green
    ensures t.predicted == p.predictedClose && t.color == p.color && t.offset == offset
    ensures p.color == Green ==> t.trigger + offset as real == p.predictedClose
    ensures p.color == Red ==> t.trigger - offset as real == p.predictedClose
  {
    if p.color == Green then EntryTrigger(p.predictedClose - offset as real, p.predictedClose, Call, p.color, offset)
    else EntryTrigger(p.predictedClose + offset as real, p.predictedClose, Put, p.color, offset)
  }

  /**
   * For an engine prediction the trigger's direction is the prediction's
   * position, and with a positive offset the trigger lies on the entry side:
   * below for a CALL, above for a PUT.
   */
  lemma TriggerMatchesPosition(phase: Phase, key: Option<Key>, open: real, high: real, low: real, offset: int)
    requires offset > 0
    ensures var p := PredictionFor(phase, key, open, high, low);
            var t := EntryTriggerFor(p, offset);
            t.direction == p.position &&
            (t.direction == Call ==> t.trigger < p.predictedClose) &&
            (t.direction == Put ==> t.trigger > p.predictedClose)
  {
  }

  // ---------------------------------------------------------------------
  // Ledger

  function AccuracyOf(hits: nat, total: nat): (a: real)
    ensures total == 0 ==> a == 0.0
    ensures hits <= total ==> 0.0 <= a <= 100.0
    ensures 0 < total && hits == total ==> a == 100.0
  {
    if total == 0 then 0.0
    else
      assert hits <= total ==> (hits as real) / (total as real) <= 1.0;
      (hits as real / total as real) * 100.0
  }

  datatype Confirmation = Confirmation(
    actualClose: real,
    predictedClose: real,
    absoluteError: real,
    percentError: real,
    actualColor: Color,
    predictedColor: Color,
    colorHit: bool,
    currentAccuracy: real)

  datatype ConfirmOutcome = Confirmed(confirmation: Confirmation) | NothingToConfirm

  /** The comparison of a stored prediction with the realised close. */
  function ConfirmationFor(last: Prediction, actualClose: real, accuracy: real): (c: Confirmation)
    ensures c.actualColor == ColorOf(actualClose, last.openUsed)
    ensures c.colorHit <==> c.actualColor == last.color
    ensures c.absoluteError >= 0.0
    ensures c.absoluteError == 0.0 <==> actualClose == last.predictedClose
    ensures actualClose == 0.0 ==> c.percentError == 0.0
    ensures c.percentError >= 0.0
  {
    var absoluteError := Abs(actualClose - last.predictedClose);
    var percentError := if actualClose != 0.0 then (absoluteError / Abs(actualClose)) * 100.0 else 0.0;
    var actualColor := ColorOf(actualClose, last.openUsed);
    Confirmation(actualClose, last.predictedClose, absoluteError, percentError,
                 actualColor, last.color, actualColor == last.color, accuracy)
  }

  datatype EngineStatistics = EngineStatistics(
    detectedPhase: Option<Phase>,
    activeKey: Option<Key>,
    totalPredictions: nat,
    hits: nat,
    accuracy: real,
    historyLength: nat)

  datatype Strategy = KeyStrategy(key: Key) | FibonacciStrategy

  datatype FeedReport = FeedReport(totalCandles: nat, detectedPhase: Phase, strategy: Strategy, phase1Key: Option<Key>)

  // ---------------------------------------------------------------------
  // The engine

  class PredictionEngine {
    var detectedPhase: Option<Phase>
    var activeKey: Option<Key>
    var history: seq<Prediction>
    var totalPredictions: nat
    var hits: nat
    var accuracy: real

    /** The counters never record more hits than confirmations, and the accuracy is their percentage. */
    ghost predicate Valid()
      reads this`hits, this`totalPredictions, this`accuracy
    {
      hits <= totalPredictions && accuracy == AccuracyOf(hits, totalPredictions)
    }

    constructor ()
      ensures Valid()
      ensures detectedPhase == None && activeKey == None && history == []
      ensures totalPredictions == 0 && hits == 0 && accuracy == 0.0
    {
      detectedPhase := None;
      activeKey := None;
      history := [];
      totalPredictions := 0;
      hits := 0;
      accuracy := 0.0;
    }

    /** Classifies the history; no data gives phase 1 and leaves the stored phase as it was. */
    method DetectPhase(data: seq<Candle>) returns (phase: Phase)
      modifies this`detectedPhase
      ensures phase == PhaseOf(data)
      ensures detectedPhase == if |data| == 0 then old(detectedPhase) else Some(phase)
    {
      if |data| == 0 {
        return Phase1;
      }
      var meanOpen := MeanOpen(data);
      phase := if meanOpen > 1000.0 then Phase2 else Phase1;
      detectedPhase := Some(phase);
    }

    /** Fewer than 10 candles give the default key without storing it; otherwise the backtest winner is stored. */
    method DiscoverKey(data: seq<Candle>) returns (key: Key)
      modifies this`activeKey
      ensures key == DiscoveredKey(data)
      ensures activeKey == if |data| < 10 then old(activeKey) else Some(key)
    {
      if |data| < 10 {
        return SumLast3;
      }
      var score;
      key, score := SelectBestKey(data);
      activeKey := Some(key);
    }

    /**
     * Feeds the history: detects the phase and, for phase 1, discovers the
     * key. The reported phase-1 key is the stored one, which the default key
     * of a short history does not replace.
     */
    method Feed(data: seq<Candle>) returns (r: FeedReport)
      modifies this`detectedPhase, this`activeKey
      ensures r.totalCandles == |data| && r.detectedPhase == PhaseOf(data)
      ensures detectedPhase == if |data| == 0 then old(detectedPhase) else Some(PhaseOf(data))
      ensures activeKey == if PhaseOf(data) == Phase1 && |data| >= 10 then Some(DiscoveredKey(data)) else old(activeKey)
      ensures r.strategy == if PhaseOf(data) == Phase1 then KeyStrategy(DiscoveredKey(data)) else FibonacciStrategy
      ensures r.phase1Key == if PhaseOf(data) == Phase1 then activeKey else None
    {
      var phase := DetectPhase(data);
      var strategy;
      if phase == Phase1 {
        var key := DiscoverKey(data);
        strategy := KeyStrategy(key);
      } else {
        strategy := FibonacciStrategy;
      }
      r := FeedReport(|data|, phase, strategy, if phase == Phase1 then activeKey else None);
    }

    /** Predicts from the stored phase and key only, and appends the prediction to the history. */
    method MakePrediction(open: real, high: real, low: real) returns (p: Prediction)
      modifies this`history
      ensures p == PredictionFor(EffectivePhase(detectedPhase), activeKey, open, high, low)
      ensures history == old(history) + [p]
    {
      var phase := if detectedPhase.Some? then detectedPhase.value else Phase2;
      var close;
      if phase == Phase1 {
        close := PredictPhase1(open, high, low, activeKey);
      } else {
        close := FibonacciAmplitude(open, high, low);
      }
      var color := if close > open then Green else Red;
      var position := if color == Green then Call else Put;
      var algorithm := if phase == Phase1 then Phase1Keyed(activeKey) else FibonacciAlgorithm;
      p := Prediction(close, color, position, phase, algorithm, open, high, low);
      history := history + [p];
    }

    /**
     * Confirms the most recent prediction against the realised close: one more
     * confirmation, one more hit when the colours agree, and the accuracy
     * recomputed. With no prediction stored nothing changes.
     */
    method ConfirmResult(actualClose: real) returns (r: ConfirmOutcome)
      requires Valid()
      modifies this`totalPredictions, this`hits, this`accuracy
      ensures Valid()
      ensures |history| == 0 ==>
                r == NothingToConfirm &&
                totalPredictions == old(totalPredictions) && hits == old(hits) && accuracy == old(accuracy)
      ensures |history| > 0 ==>
                var last := history[|history| - 1];
                var hit := ColorOf(actualClose, last.openUsed) == last.color;
                && totalPredictions == old(totalPredictions) + 1
                && hits == (if hit then old(hits) + 1 else old(hits))
                && r == Confirmed(ConfirmationFor(last, actualClose, accuracy))
    {
      if |history| == 0 {
        return NothingToConfirm;
      }
      var last := history[|history| - 1];
      var actualColor := if actualClose > last.openUsed then Green else Red;
      var hit := actualColor == last.color;
      totalPredictions := totalPredictions + 1;
      if hit {
        hits := hits + 1;
      }
      accuracy := (hits as real / totalPredictions as real) * 100.0;
      r := Confirmed(ConfirmationFor(last, actualClose, accuracy));
    }

    /** The statistics report: the confirmation counter, not the history length, is the total. */
    function Statistics(): (s: EngineStatistics)
      reads this
      ensures s.totalPredictions == totalPredictions && s.historyLength == |history|
      ensures s.hits == hits && s.accuracy == accuracy
      ensures s.detectedPhase == detectedPhase && s.activeKey == activeKey
    {
      EngineStatistics(detectedPhase, activeKey, totalPredictions, hits, accuracy, |history|)
    }
  }

  /** Predicting twice with the same partial candle gives the same prediction, although the history has grown. */
  method RepeatedPredictionsAgree(e: PredictionEngine, open: real, high: real, low: real)
    returns (first: Prediction, second: Prediction)
    modifies e
    ensures first == second
    ensures e.history == old(e.history) + [first, second]
  {
    first := e.MakePrediction(open, high, low);
    second := e.MakePrediction(open, high, low);
  }

  /** Two engines holding the same phase and key predict alike, whatever their histories and counters. */
  method EnginesWithSameStateAgree(a: PredictionEngine, b: PredictionEngine, open: real, high: real, low: real)
    returns (pa: Prediction, pb: Prediction)
    requires a.detectedPhase == b.detectedPhase && a.activeKey == b.activeKey
    modifies a, b
    ensures pa == pb
  {
    pa := a.MakePrediction(open, high, low);
    pb := b.MakePrediction(open, high, low);
  }
}
