/** The mock event-trainer endpoints (backend/app/api/trainer.py): a proposal with one lasso
    region per selected player, and the commit acknowledgement. */
module TrainerApi {

  datatype PointXY = PointXY(x: int, y: int)

  datatype Region = Region(playerId: string, shape: string, points: seq<PointXY>)

  datatype Proposal = Proposal(labelText: string, frameTimestamp: real, regions: seq<Region>, notes: string)

  datatype CommitResult = CommitResult(proposalId: string, status: string)

  const RegionPoints := 3

  /** The lasso points of every region. */
  function LassoPoints(): (r: seq<PointXY>)
    ensures |r| == RegionPoints
  {
    seq(RegionPoints, index => PointXY(index * 12 + 32, index * 8 + 24))
  }

  /** `propose_training_event`. */
  function Propose(labelText: string, frameTimestamp: real, selectedPlayerIds: seq<string>): Proposal
  {
    Proposal(labelText, frameTimestamp,
             seq(|selectedPlayerIds|, i requires 0 <= i < |selectedPlayerIds| => Region(selectedPlayerIds[i], "lasso", LassoPoints())),
             "Anchor coverage lane for right-side read.")
  }

  /** The player ids of a proposal's regions, in region order. */
  function RegionPlayers(regions: seq<Region>): (ids: seq<string>)
    ensures |ids| == |regions|
  {
    seq(|regions|, i requires 0 <= i < |regions| => regions[i].playerId)
  }

  /** One region per selected player, in the same order (the selection can be read back from
      the regions); each is a lasso of the three points (32, 24), (44, 32), (56, 40); label and
      timestamp are echoed. */
  lemma ProposalShape(labelText: string, frameTimestamp: real, selectedPlayerIds: seq<string>)
    ensures var p := Propose(labelText, frameTimestamp, selectedPlayerIds);
            && p.labelText == labelText && p.frameTimestamp == frameTimestamp
            && RegionPlayers(p.regions) == selectedPlayerIds
            && forall i :: 0 <= i < |p.regions| ==>
                 p.regions[i].shape == "lasso"
                 && p.regions[i].points == [PointXY(32, 24), PointXY(44, 32), PointXY(56, 40)]
  {
    var pts := LassoPoints();
    assert pts[0] == PointXY(32, 24) && pts[1] == PointXY(44, 32) && pts[2] == PointXY(56, 40);
    assert pts == [PointXY(32, 24), PointXY(44, 32), PointXY(56, 40)];
  }

  /** `commit_training_event`. */
  function Commit(proposalId: string, accepted: bool): (r: CommitResult)
    ensures r.proposalId == proposalId
    ensures r.status == "applied" <==> accepted
    ensures r.status == "discarded" <==> !accepted
  {
    CommitResult(proposalId, if accepted then "applied" else "discarded")
  }
}
