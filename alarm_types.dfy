/**
 * The records shared by the page and the service worker.
 *
 * Instants are integer milliseconds since the epoch; the ISO 8601 text that
 * carries an instant inside a message, and its parsing back, are not modelled.
 */
module AlarmTypes {

  /** An alarm as the page stores, lists and edits it. */
  datatype Alarm = Alarm(id: string, name: string, time: int, active: bool)

  /** The fields of a new alarm before the page assigns its identifier. */
  datatype AlarmDraft = AlarmDraft(name: string, time: int, active: bool)

  /**
   * The copy of an alarm that travels to the worker in `SCHEDULE_ALARM`:
   * identifier, name and time, and no `active` flag.
   */
  datatype AlarmPayload = AlarmPayload(id: string, name: string, time: int)

  /** The messages the worker's `message` listener distinguishes by `type`. */
  datatype WorkerMessage =
    | ScheduleAlarm(alarm: AlarmPayload)
    | CancelAlarm(alarmId: string)
    | KeepAlivePing
    | SkipWaiting
    | Unrecognized
}
