/**
 * The instrumented twin of the closing-price engine. It computes with the
 * same phase rule, key backtest, Fibonacci rule and phase-1 blends as
 * `ClosePrediction.PredictionEngine`; it carries a bot identifier that it
 * stamps on every stored prediction, has no confirmation path, and its
 * statistics report counts the stored predictions.
 */
module ClosePredictionDebug {
  import opened Market
  import opened KeyFunctions
  import opened ClosePrediction

  /** A stored prediction of the debug engine: the prediction and the bot that made it. */
  datatype DebugPrediction = DebugPrediction(prediction: Prediction, botId: string)

  datatype DebugStatistics = DebugStatistics(
    botId: string,
    detectedPhase: Option<Phase>,
    activeKey: Option<Key>,
    totalPredictions: nat,
    hits: nat,
    accuracy: real)

  /** A missing or empty bot identifier becomes "UNKNOWN". */
  function BotIdOf(given: Option<string>): (id: string)
    ensures id != ""
    ensures given.Some? && given.value != "" ==> id == given.value
    ensures given.None? || given.value == "" ==> id == "UNKNOWN"
  {
    if given.Some? && given.value != "" then given.value else "UNKNOWN"
  }

  class PredictionEngineDebug {
    var botId: string
    var detectedPhase: Option<Phase>
    var activeKey: Option<Key>
    var history: seq<DebugPrediction>
    var hits: nat
    var accuracy: real

    constructor (givenBotId: Option<string>)
      ensures botId == BotIdOf(givenBotId)
      ensures detectedPhase == None && activeKey == None && history == []
      ensures hits == 0 && accuracy == 0.0
    {
      botId := if givenBotId.Some? && givenBotId.value != "" then givenBotId.value else "UNKNOWN";
      detectedPhase := None;
      activeKey := None;
      history := [];
      hits := 0;
      accuracy := 0.0;
    }

    /** As the main engine: no data gives phase 1 without recording it; otherwise the phase is recorded. */
    method DetectPhase(data: seq<Candle>) returns (phase: Phase)
      modifies this`detectedPhase
      ensures phase == PhaseOf(data)
      ensures detectedPhase == if |data| == 0 then old(detectedPhase) else Some(phase)
    {
      if |data| == 0 {
        return Phase1;
      }
      var meanOpen := MeanOpen(data);
      if meanOpen > 1000.0 {
        phase := Phase2;
      } else {
        phase := Phase1;
      }
      detectedPhase := Some(phase);
    }

    /** As the main engine: a short history gives the default key unstored; otherwise the strict best is stored. */
    method DiscoverKey(data: seq<Candle>) returns (key: Key)
      modifies this`activeKey
      ensures key == DiscoveredKey(data)
      ensures activeKey == if |data| < 10 then old(activeKey) else Some(key)
    {
      if |data| < 10 {
        return SumLast3;
      }
      var score;
      key, score := SelectBestKey(data);
      activeKey := Some(key);
    }

    method Feed(data: seq<Candle>) returns (r: FeedReport)
      modifies this`detectedPhase, this`activeKey
      ensures r.totalCandles == |data| && r.detectedPhase == PhaseOf(data)
      ensures detectedPhase == if |data| == 0 then old(detectedPhase) else Some(PhaseOf(data))
      ensures activeKey == if PhaseOf(data) == Phase1 && |data| >= 10 then Some(DiscoveredKey(data)) else old(activeKey)
      ensures r.strategy == if PhaseOf(data) == Phase1 then KeyStrategy(DiscoveredKey(data)) else FibonacciStrategy
      ensures r.phase1Key == if PhaseOf(data) == Phase1 then activeKey else None
    {
      var phase := DetectPhase(data);
      var strategy;
      if phase == Phase1 {
        var key := DiscoverKey(data);
        strategy := KeyStrategy(key);
      } else {
        strategy := FibonacciStrategy;
      }
      r := FeedReport(|data|, phase, strategy, if phase == Phase1 then activeKey else None);
    }

    /** Predicts from the stored phase and key only, and appends the prediction stamped with the bot identifier. */
    method MakePrediction(open: real, high: real, low: real) returns (p: DebugPrediction)
      modifies this`history
      ensures p.prediction == PredictionFor(EffectivePhase(detectedPhase), activeKey, open, high, low)
      ensures p.botId == botId
      ensures history == old(history) + [p]
    {
      var phase := if detectedPhase.Some? then detectedPhase.value else Phase2;
      var close;
      if phase == Phase1 {
        close := PredictPhase1(open, high, low, activeKey);
      } else {
        close := FibonacciAmplitude(open, high, low);
      }
      var color := if close > open then Green else Red;
      var position := if color == Green then Call else Put;
      var algorithm := if phase == Phase1 then Phase1Keyed(activeKey) else FibonacciAlgorithm;
      p := DebugPrediction(Prediction(close, color, position, phase, algorithm, open, high, low), botId);
      history := history + [p];
    }

    /** The statistics report: here the total is the number of stored predictions. */
    function Statistics(): (s: DebugStatistics)
      reads this
      ensures s.totalPredictions == |history|
      ensures s.botId == botId && s.hits == hits && s.accuracy == accuracy
      ensures s.detectedPhase == detectedPhase && s.activeKey == activeKey
    {
      DebugStatistics(botId, detectedPhase, activeKey, |history|, hits, accuracy)
    }
  }

  /**
   * The two engines, fed and asked alike, predict the same close; the debug
   * engine's report counts the stored predictions while the main engine's
   * counts confirmations, so they disagree as soon as a prediction is stored
   * and not yet confirmed.
   */
  method EnginesAgreeOnPrediction(data: seq<Candle>, open: real, high: real, low: real)
    returns (main: Prediction, debug: DebugPrediction, mainTotal: nat, debugTotal: nat)
    ensures main == debug.prediction
    ensures mainTotal == 0 && debugTotal == 1
  {
    var m := new PredictionEngine();
    var d := new PredictionEngineDebug(Some("bot"));
    var rm := m.Feed(data);
    var rd := d.Feed(data);
    main := m.MakePrediction(open, high, low);
    debug := d.MakePrediction(open, high, low);
    mainTotal := m.Statistics().totalPredictions;
    debugTotal := d.Statistics().totalPredictions;
  }
}
