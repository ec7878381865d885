/** The destination-mode branch of `handleClove` as written. When the data
    message's destination does not match, the error log line dereferences
    `instructions.getDestination()` without the null check it gives
    `_client`, so an instruction without a destination makes a
    NullPointerException leave `handleClove` whenever error logging is on.
    Module Policy drops such a clove instead, as the other mismatches are. */
module Findings {
  import opened I2np
  import opened Policy

  datatype Exception = NullPointerException

  /** The outcome of a call that may throw. */
  datatype Outcome = Returned(effects: seq<Effect>) | Thrown(exception: Exception)

  /** `handleClove` for a destination clove exactly as written, with
      `errorLogging` standing for `_log.shouldLog(Log.ERROR)`. */
  function DestinationCloveAsWritten(client: Option<Hash>, destination: Option<Hash>, m: Msg, errorLogging: bool): (o: Outcome)
    ensures o.Returned? ==> |o.effects| == 1
  {
    if !m.body.DataBody? then Returned([Drop(NotDataMessage)])
    else if client.Some? && client == destination then Returned([ClientDeliver(client.value, m.body.data)])
    else if errorLogging && destination.None? then Thrown(NullPointerException)
    else Returned([Drop(DestinationMismatch)])
  }

  /** A data message in a destination clove without a destination, on a
      tunnel bound to no client or to any client, throws. */
  lemma MissingDestinationThrows(client: Option<Hash>, data: Bytes)
    ensures DestinationCloveAsWritten(client, None, Msg(DataBody(data), 0, 0), true) == Thrown(NullPointerException)
  {
  }

  /** Wherever the code as written returns, it does what CloveStep does. */
  lemma AsWrittenAgreesWhenReturning(ctx: Context, instr: DeliveryInstructions, m: Msg, env: Env, errorLogging: bool)
    requires instr.deliveryMode == DELIVERY_MODE_DESTINATION
    ensures var o := DestinationCloveAsWritten(ctx.client, instr.destination, m, errorLogging);
      o.Returned? ==> o.effects == CloveStep(ctx, instr, m, env).effects
  {
  }

  /** In the corrected model the same clove only drops the message and
      nothing escapes. */
  lemma MissingDestinationDropped(ctx: Context, instr: DeliveryInstructions, m: Msg, env: Env)
    requires instr.deliveryMode == DELIVERY_MODE_DESTINATION && instr.destination.None?
    ensures CloveStep(ctx, instr, m, env).effects ==
      [Drop(if m.body.DataBody? then DestinationMismatch else NotDataMessage)]
  {
  }
}
