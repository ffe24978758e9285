/**
 * The pacing tables that both handlers declare (the pause after each ball,
 * and the new-game message for each speed), and the speed default.
 */
module Pacing {
  import opened Optional

  const DEFAULT_SPEED := "normal"

  const PAUSE_TIMES: map<string, string> :=
    map["lento" := "5s", "normal" := "3s", "rápido" := "1500ms", "turbo" := "1s"]

  /** `pauseTimes[speed] || '3s'`. */
  function PauseTime(speed: string): (r: string)
    ensures r in PAUSE_TIMES.Values
    ensures speed in PAUSE_TIMES ==> r == PAUSE_TIMES[speed]
    ensures speed !in PAUSE_TIMES ==> r == PAUSE_TIMES[DEFAULT_SPEED]
  {
    assert PAUSE_TIMES[DEFAULT_SPEED] == "3s";
    if speed in PAUSE_TIMES then PAUSE_TIMES[speed] else "3s"
  }

  const SPEED_MESSAGES: map<string, string> :=
    map[
      "lento" := "modo lento, con 5 segundos entre cada bola",
      "normal" := "modo normal, con 3 segundos entre cada bola",
      "rápido" := "modo rápido, con un segundo y medio entre cada bola",
      "turbo" := "modo turbo, ¡con solo un segundo entre cada bola!"
    ]

  /** `speedMessages[speed] || speedMessages.normal`. */
  function SpeedMessage(speed: string): (r: string)
    ensures r in SPEED_MESSAGES.Values
    ensures speed in SPEED_MESSAGES ==> r == SPEED_MESSAGES[speed]
    ensures speed !in SPEED_MESSAGES ==> r == SPEED_MESSAGES[DEFAULT_SPEED]
  {
    if speed in SPEED_MESSAGES then SPEED_MESSAGES[speed] else SPEED_MESSAGES[DEFAULT_SPEED]
  }

  /** `Alexa.getSlotValue(requestEnvelope, 'speed') || 'normal'`: a missing or empty slot means "normal". */
  function SpeedFromSlot(slot: Option<string>): (speed: string)
    ensures speed != ""
    ensures slot.Some? && slot.value != "" ==> speed == slot.value
    ensures slot.None? || slot.value == "" ==> speed == DEFAULT_SPEED
  {
    if slot.Some? && slot.value != "" then slot.value else DEFAULT_SPEED
  }

  /** Both tables know the same four speeds, so every speed resolves in both alike. */
  lemma TablesAgree(speed: string)
    ensures speed in PAUSE_TIMES <==> speed in SPEED_MESSAGES
  {
  }
}
