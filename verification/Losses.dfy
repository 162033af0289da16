/** A bridge that has lost all its tags never accepts a request again. */
module Losses {
  import opened TagManager
  import opened Flits
  import opened BridgeSpec
  import opened ReadPath
  import opened WritePath
  import opened TagLedger
  import opened System
  import opened Runs
  import opened Pins
  import opened Theorems

  /** Lost tags stay lost, and when all sixteen are lost no request is ever accepted again. */
  lemma {:induction false} AllLostIsForever(cfg: Config, s: Sys, ms: seq<Moment>, open: bool, opcode: nat)
    requires cfg.depth > 0 && Inv(cfg, s) && Legal(cfg, s, ms)
    requires |s.log.leaked| + |s.log.dropped| == N_TAGS
    ensures var p := Run(cfg, s, ms);
            && |p.log.leaked| + |p.log.dropped| == N_TAGS
            && !TakesRequest(cfg, p.b, open, opcode)
    decreases |ms|
  {
    hide Step, Allowed, TakesRequest, TagSide, ReadSide, WriteSide;
    NothingLeft(cfg, s);
    if ms != [] {
      StepKeeps(cfg, s, ms[0]);
      LossesCounted(cfg, s, ms[0]);
      LossBound(cfg, Step(cfg, s, ms[0]));
      AllLostIsForever(cfg, Step(cfg, s, ms[0]), ms[1..], open, opcode);
    }
  }

  lemma LossBound(cfg: Config, s: Sys)
    requires Inv(cfg, s)
    ensures |s.log.leaked| + |s.log.dropped| <= N_TAGS
  {
    hide ReadSide, WriteSide, Remembered, ReadTags, WriteTags, WithinCredit, ResetQuiet;
    HeldAreDistinct(s.b.tags, N_TAGS, Held(s.log.rds, s.log.wrs, s.log.leaked, s.log.dropped));
  }

  lemma NothingLeft(cfg: Config, s: Sys)
    requires Inv(cfg, s) && |s.log.leaked| + |s.log.dropped| == N_TAGS
    ensures forall open, opcode :: !TakesRequest(cfg, s.b, open, opcode)
  {
    hide ReadSide, WriteSide, Remembered, ReadTags, WriteTags, WithinCredit, ResetQuiet;
    HeldAreDistinct(s.b.tags, N_TAGS, Held(s.log.rds, s.log.wrs, s.log.leaked, s.log.dropped));
  }
}
