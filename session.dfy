/** One round of the spin-the-bottle mode, as the two components run it together: the
    spin button, the completion timer, and the parent's targeted request. */
module Session {
  import opened Wrappers
  import opened Angles
  import opened SpinBottleComponent
  import opened IcebreakerApp

  /** A spin started while no request is pending, its timer firing, and the targeted
      request for the reported winner settling to `response`. The question, if one is
      delivered, is addressed to a player who was on the roster when the spin started and
      carries the controls of that moment, and the loading flag is down at the end whatever
      the outcome. */
  method SpinRound(bottle: SpinBottle, app: App, pick: real, turns: real,
                   response: Response<string>, id: string, now: int)
    returns (started: bool, winner: Option<string>)
    requires bottle.Valid() && app.Valid()
    requires 0.0 <= pick < 1.0 && 0.0 <= turns < 1.0
    modifies bottle`isSpinning, bottle`pendingWinner, bottle`rotation
    modifies app`targetedQuestion, app`error, app`isLoading
    ensures bottle.Valid() && app.Valid()
    ensures started == old(bottle.CanSpin(app.isLoading))
    ensures !started ==>
              && winner == None
              && bottle.rotation == old(bottle.rotation)
              && bottle.isSpinning == old(bottle.isSpinning)
              && bottle.pendingWinner == old(bottle.pendingWinner)
              && app.targetedQuestion == old(app.targetedQuestion)
              && app.error == old(app.error) && app.isLoading == old(app.isLoading)
    ensures started ==>
              && winner.Some?
              && winner.value in old(bottle.players)
              && winner.value == old(bottle.players)[RandomIndex(pick, |old(bottle.players)|)]
              && !bottle.isSpinning && !app.isLoading
              && bottle.rotation == FinalRotation(old(bottle.rotation),
                                                  TargetAngle(RandomIndex(pick, |old(bottle.players)|), |old(bottle.players)|),
                                                  FullSpins(RandomIndex(turns, 3)))
              && Mod360(bottle.rotation) == TargetAngle(RandomIndex(pick, |old(bottle.players)|), |old(bottle.players)|)
              && bottle.rotation > old(bottle.rotation) + 1440.0
    ensures started && response.Delivered? ==>
              && app.targetedQuestion
                   == Some(MakeQuestion(Request(old(app.context), old(app.chaos), old(app.filters)),
                                        response.value, id, now, winner))
              && app.targetedQuestion.value.targetPerson == winner
              && app.targetedQuestion.value.context == old(app.context)
              && app.targetedQuestion.value.chaosLevel == old(app.chaos)
              && app.targetedQuestion.value.filters == old(app.filters)
              && app.error == None
    ensures started && response.Rejected? ==>
              && app.targetedQuestion == old(app.targetedQuestion)
              && app.error == Some(ErrorText(response.message, TargetedFallback))
  {
    var controls := Request(app.context, app.chaos, app.filters);
    started := bottle.Spin(app.isLoading, pick, turns);
    if !started {
      return started, None;
    }
    var name := bottle.CompleteSpin();
    app.HandleSpinComplete(controls, name, response, id, now);
    winner := Some(name);
  }
}
