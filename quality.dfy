/** The client's connection-quality classifier and the video-level adaptation
    it drives: four quality bands from average round-trip time, jitter and
    packet loss, a transition rule over three video levels, and the sender
    encoding parameters each level stands for. */
module Quality {
  import opened Optional

  datatype ConnectionQuality = Unknown | Excellent | Good | Fair | Poor
  datatype VideoLevel = High | Medium | Low

  /** Network quality as a number: larger is better; `Unknown` ranks lowest. */
  function QualityRank(q: ConnectionQuality): nat
  {
    match q
    case Unknown => 0
    case Poor => 1
    case Fair => 2
    case Good => 3
    case Excellent => 4
  }

  /** Video level as a number: larger is a higher level. */
  function LevelRank(v: VideoLevel): nat
  {
    match v
    case Low => 0
    case Medium => 1
    case High => 2
  }

  // ---------------------------------------------------------------------
  // Classification
  // ---------------------------------------------------------------------

  /** The mean of `count` samples summing to `total`; 0 when there are none. */
  function Average(total: real, count: nat): (a: real)
    ensures count == 0 ==> a == 0.0
    ensures count > 0 ==> a * (count as real) == total
  {
    if count > 0 then total / (count as real) else 0.0
  }

  /** The classifier: the first band whose three strict bounds all hold,
      `Poor` when none does. */
  function Classify(rtt: real, jitter: real, loss: real): (q: ConnectionQuality)
    ensures q != Unknown
  {
    if rtt < 100.0 && jitter < 0.01 && loss < 0.01 then Excellent
    else if rtt < 200.0 && jitter < 0.02 && loss < 0.05 then Good
    else if rtt < 500.0 && jitter < 0.05 && loss < 0.1 then Fair
    else Poor
  }

  /** One band of the classifier: its quality and its three exclusive upper bounds. */
  datatype Tier = Tier(quality: ConnectionQuality, maxRtt: real, maxJitter: real, maxLoss: real)

  /** The bands, best first, as a table. */
  const Tiers: seq<Tier> := [
    Tier(Excellent, 100.0, 0.01, 0.01),
    Tier(Good, 200.0, 0.02, 0.05),
    Tier(Fair, 500.0, 0.05, 0.1)
  ]

  predicate Meets(t: Tier, rtt: real, jitter: real, loss: real)
  {
    rtt < t.maxRtt && jitter < t.maxJitter && loss < t.maxLoss
  }

  /** Reference reading of the classifier: scan the table in order and take
      the first band met; `Poor` when the table is exhausted. */
  function FirstMet(ts: seq<Tier>, rtt: real, jitter: real, loss: real): ConnectionQuality
  {
    if ts == [] then Poor
    else if Meets(ts[0], rtt, jitter, loss) then ts[0].quality
    else FirstMet(ts[1..], rtt, jitter, loss)
  }

  /** The classifier is the first-match scan over the band table. */
  lemma ClassifyIsFirstMet(rtt: real, jitter: real, loss: real)
    ensures Classify(rtt, jitter, loss) == FirstMet(Tiers, rtt, jitter, loss)
  {
    var t1, t2, t3 := Tiers[1..], Tiers[2..], Tiers[3..];
    assert t1 == [Tier(Good, 200.0, 0.02, 0.05), Tier(Fair, 500.0, 0.05, 0.1)];
    assert t2 == [Tier(Fair, 500.0, 0.05, 0.1)];
    assert t3 == [];
    assert FirstMet(t2, rtt, jitter, loss) == if Meets(t2[0], rtt, jitter, loss) then Fair else FirstMet(t3, rtt, jitter, loss);
  }

  /** A result is a band exactly when that band's bounds hold and no better
      band's do. */
  lemma ClassifyBands(rtt: real, jitter: real, loss: real)
    ensures Classify(rtt, jitter, loss) == Excellent <==> Meets(Tiers[0], rtt, jitter, loss)
    ensures Classify(rtt, jitter, loss) == Good <==>
              !Meets(Tiers[0], rtt, jitter, loss) && Meets(Tiers[1], rtt, jitter, loss)
    ensures Classify(rtt, jitter, loss) == Fair <==>
              !Meets(Tiers[0], rtt, jitter, loss) && !Meets(Tiers[1], rtt, jitter, loss) && Meets(Tiers[2], rtt, jitter, loss)
    ensures Classify(rtt, jitter, loss) == Poor <==>
              forall k :: 0 <= k < |Tiers| ==> !Meets(Tiers[k], rtt, jitter, loss)
  {
    var q := Classify(rtt, jitter, loss);
    if q == Poor {
      forall k | 0 <= k < |Tiers|
        ensures !Meets(Tiers[k], rtt, jitter, loss)
      {
        assert k == 0 || k == 1 || k == 2;
      }
    }
  }

  /** Worse measurements never give a better band. */
  lemma ClassifyMonotone(rtt: real, jitter: real, loss: real, rtt': real, jitter': real, loss': real)
    requires rtt <= rtt' && jitter <= jitter' && loss <= loss'
    ensures QualityRank(Classify(rtt', jitter', loss')) <= QualityRank(Classify(rtt, jitter, loss))
  {
  }

  /** With no qualifying reports every average is 0, which is `Excellent`. */
  lemma NoReportsIsExcellent(totalRtt: real, totalJitter: real, totalLoss: real)
    ensures Classify(Average(totalRtt, 0), Average(totalJitter, 0), Average(totalLoss, 0)) == Excellent
  {
  }

  // ---------------------------------------------------------------------
  // Adaptation
  // ---------------------------------------------------------------------

  const PoorMessage := "Poor connection detected. Switching to low quality for better performance."
  const FairMessage := "Connection is fair. Switching to medium quality."
  const ImprovedMessage := "Connection improved. Switching to medium quality."
  const ExcellentMessage := "Excellent connection! Switching to high quality."

  /** The decision `adaptVideoQuality` takes: the new level and the message it
      would show, empty when nothing changes. */
  datatype Adaptation = Adaptation(level: VideoLevel, message: string)

  /** The transition rule, from network quality and the current level. */
  function Adapt(quality: ConnectionQuality, current: VideoLevel): (d: Adaptation)
    ensures d.level != current <==> d.message != ""
  {
    if quality == Poor && current != Low then Adaptation(Low, PoorMessage)
    else if quality == Fair && current == High then Adaptation(Medium, FairMessage)
    else if quality == Good && current == Low then Adaptation(Medium, ImprovedMessage)
    else if quality == Excellent && current != High then Adaptation(High, ExcellentMessage)
    else Adaptation(current, "")
  }

  function Lower(a: VideoLevel, b: VideoLevel): VideoLevel
  {
    if LevelRank(a) <= LevelRank(b) then a else b
  }

  function Higher(a: VideoLevel, b: VideoLevel): VideoLevel
  {
    if LevelRank(a) >= LevelRank(b) then a else b
  }

  /** Reference reading of the rule: each network quality names a band of
      acceptable levels, and the level moves to the nearest level in it —
      `Poor` admits only low, `Fair` at most medium, `Good` at least medium,
      `Excellent` only high, `Unknown` anything. */
  function Target(quality: ConnectionQuality, current: VideoLevel): VideoLevel
  {
    match quality
    case Poor => Low
    case Fair => Lower(current, Medium)
    case Good => Higher(current, Medium)
    case Excellent => High
    case Unknown => current
  }

  /** The rule moves to the nearest acceptable level, and names the reason. */
  lemma AdaptFollowsTarget(quality: ConnectionQuality, current: VideoLevel)
    ensures Adapt(quality, current).level == Target(quality, current)
    ensures Adapt(quality, current).level != current ==>
              Adapt(quality, current).message ==
                match quality
                case Poor => PoorMessage
                case Fair => FairMessage
                case Good => ImprovedMessage
                case _ => ExcellentMessage
  {
  }

  /** The individual rules: poor always ends at low, excellent always at high,
      fair only lowers high to medium, good only raises low to medium. */
  lemma AdaptRules(quality: ConnectionQuality, current: VideoLevel)
    ensures quality == Poor ==> Adapt(quality, current).level == Low
    ensures quality == Excellent ==> Adapt(quality, current).level == High
    ensures quality == Fair ==> Adapt(quality, current).level == if current == High then Medium else current
    ensures quality == Good ==> Adapt(quality, current).level == if current == Low then Medium else current
    ensures quality == Unknown ==> Adapt(quality, current) == Adaptation(current, "")
  {
    AdaptFollowsTarget(quality, current);
  }

  /** Adapting a second time to the same network quality changes nothing. */
  lemma AdaptIdempotent(quality: ConnectionQuality, current: VideoLevel)
    ensures Adapt(quality, Adapt(quality, current).level) == Adaptation(Adapt(quality, current).level, "")
  {
  }

  /** A better network quality never leads to a lower level than a worse one
      from the same starting level. */
  lemma AdaptMonotone(q: ConnectionQuality, q': ConnectionQuality, current: VideoLevel)
    requires q != Unknown && QualityRank(q) <= QualityRank(q')
    ensures LevelRank(Adapt(q, current).level) <= LevelRank(Adapt(q', current).level)
  {
  }

  // ---------------------------------------------------------------------
  // Sender encodings
  // ---------------------------------------------------------------------

  /** The three encoding parameters a level sets. */
  datatype EncodingSettings = EncodingSettings(maxBitrate: nat, maxFramerate: nat, scaleResolutionDownBy: real)

  /** The level-to-parameters table of `applyVideoQualitySettings`. */
  function SettingsFor(level: VideoLevel): (s: EncodingSettings)
    ensures s.maxBitrate > 0 && s.maxFramerate > 0 && s.scaleResolutionDownBy >= 1.0
    ensures level == High ==> s.scaleResolutionDownBy == 1.0
  {
    match level
    case High => EncodingSettings(1000000, 30, 1.0)
    case Medium => EncodingSettings(500000, 20, 1.5)
    case Low => EncodingSettings(200000, 15, 2.0)
  }

  /** A lower level has strictly less bitrate and frame rate and strictly more
      down-scaling. */
  lemma SettingsOrdered(a: VideoLevel, b: VideoLevel)
    requires LevelRank(a) < LevelRank(b)
    ensures SettingsFor(a).maxBitrate < SettingsFor(b).maxBitrate
    ensures SettingsFor(a).maxFramerate < SettingsFor(b).maxFramerate
    ensures SettingsFor(a).scaleResolutionDownBy > SettingsFor(b).scaleResolutionDownBy
  {
  }

  /** One entry of an RTP sender's `encodings` list; the fields the level
      table does not touch are kept as they are. */
  datatype Encoding = Encoding(rid: Option<string>, active: bool,
                               maxBitrate: Option<nat>, maxFramerate: Option<nat>,
                               scaleResolutionDownBy: Option<real>)

  /** An entry carries exactly the parameters of `level`. */
  predicate Carries(e: Encoding, level: VideoLevel)
  {
    var s := SettingsFor(level);
    e.maxBitrate == Some(s.maxBitrate) && e.maxFramerate == Some(s.maxFramerate)
    && e.scaleResolutionDownBy == Some(s.scaleResolutionDownBy)
  }

  /** The quality state of a call view: the current video level, the
      notification banner, and the video sender's encodings (`null` when the
      sender's parameters carry no encodings). */
  class QualityView {
    var videoQuality: VideoLevel
    var notificationMessage: string
    var showNotification: bool
    var senderReady: bool
    const encodings: array?<Encoding>

    /** A fresh view: high quality, no banner. */
    constructor(ready: bool, encs: array?<Encoding>)
      ensures videoQuality == High && notificationMessage == "" && !showNotification
      ensures senderReady == ready && encodings == encs
    {
      videoQuality := High;
      notificationMessage := "";
      showNotification := false;
      senderReady := ready;
      encodings := encs;
    }

    /** `applyVideoQualitySettings`: when there is a peer connection and a
        video sender, give every encoding entry the parameters of `level`,
        keeping its other fields; `pushed` says whether new parameters were
        handed back to the sender. */
    method ApplyVideoQualitySettings(level: VideoLevel) returns (pushed: bool)
      modifies encodings
      ensures pushed <==> senderReady && encodings != null
      ensures encodings != null && !pushed ==> encodings[..] == old(encodings[..])
      ensures pushed ==> forall k :: 0 <= k < encodings.Length ==>
                && Carries(encodings[k], level)
                && encodings[k].rid == old(encodings[k].rid)
                && encodings[k].active == old(encodings[k].active)
    {
      if !senderReady || encodings == null {
        return false;
      }
      var s := SettingsFor(level);
      for i := 0 to encodings.Length
        invariant forall k :: 0 <= k < i ==>
                    && Carries(encodings[k], level)
                    && encodings[k].rid == old(encodings[k].rid)
                    && encodings[k].active == old(encodings[k].active)
        invariant forall k :: i <= k < encodings.Length ==> encodings[k] == old(encodings[k])
      {
        encodings[i] := encodings[i].(maxBitrate := Some(s.maxBitrate), maxFramerate := Some(s.maxFramerate),
                                      scaleResolutionDownBy := Some(s.scaleResolutionDownBy));
      }
      pushed := true;
    }

    /** `adaptVideoQuality`: take the decision for the new network quality;
        when the level changes, record it, raise the banner with its message
        and apply the level's encoding parameters. */
    method AdaptVideoQuality(quality: ConnectionQuality) returns (pushed: bool)
      modifies this, encodings
      ensures senderReady == old(senderReady)
      ensures videoQuality == Adapt(quality, old(videoQuality)).level
      ensures videoQuality == old(videoQuality) ==>
                && notificationMessage == old(notificationMessage)
                && showNotification == old(showNotification)
                && !pushed
                && (encodings != null ==> encodings[..] == old(encodings[..]))
      ensures videoQuality != old(videoQuality) ==>
                && notificationMessage == Adapt(quality, old(videoQuality)).message
                && notificationMessage != ""
                && showNotification
                && (pushed <==> senderReady && encodings != null)
      ensures !pushed && encodings != null ==> encodings[..] == old(encodings[..])
      ensures pushed ==> forall k :: 0 <= k < encodings.Length ==>
                && Carries(encodings[k], videoQuality)
                && encodings[k].rid == old(encodings[k].rid)
                && encodings[k].active == old(encodings[k].active)
    {
      var d := Adapt(quality, videoQuality);
      pushed := false;
      if d.level != videoQuality {
        videoQuality := d.level;
        notificationMessage := d.message;
        showNotification := true;
        pushed := ApplyVideoQualitySettings(d.level);
      }
    }

    /** The banner's timeout: hide it, leaving everything else. */
    method DismissNotification()
      modifies this`showNotification
      ensures !showNotification
    {
      showNotification := false;
    }
  }
}
