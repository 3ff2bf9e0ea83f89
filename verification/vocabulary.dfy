/** The status vocabulary shared by the provider clients and the dispatch tasks,
    and the counter/timer events the clients emit. */
module Vocabulary {

  /** Notification statuses, as the names stored in the notifications table. */
  datatype NotificationStatus =
    | Created
    | Sending
    | Delivered
    | TemporaryFailure
    | PermanentFailure
    | TechnicalFailure
  {
    function Name(): string
    {
      match this
      case Created => "created"
      case Sending => "sending"
      case Delivered => "delivered"
      case TemporaryFailure => "temporary-failure"
      case PermanentFailure => "permanent-failure"
      case TechnicalFailure => "technical-failure"
    }
  }

  /** The provider-statistics tag: `delivered` or `failure`. */
  datatype StatisticsStatus = StatisticsDelivered | StatisticsFailure

  /** One statsd event: a counter increment or a timing sample (its value is not modelled). */
  datatype Metric = Incr(name: string) | Timing(name: string)
}
