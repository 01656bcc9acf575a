/** The subscription record and the event the scanner publishes. */
module Domain {
  datatype Subscription = Subscription(
    id: int,
    email: string,
    repoOwner: string,
    repoName: string,
    confirmed: bool,
    confirmToken: string,
    unsubscribeToken: string,
    lastSeenTag: string)
  {
    /** The grouping key of a scan. */
    function Repo(): string { repoOwner + "/" + repoName }
  }

  datatype ReleaseDetected = ReleaseDetected(
    email: string,
    repoOwner: string,
    repoName: string,
    tag: string,
    unsubscribeToken: string)

  function EventFor(sub: Subscription, tag: string): ReleaseDetected {
    ReleaseDetected(sub.email, sub.repoOwner, sub.repoName, tag, sub.unsubscribeToken)
  }

  /** An accepted event together with the row it was published for. */
  datatype Entry = Entry(id: int, event: ReleaseDetected)

  /** The fields of a row that no operation changes. */
  predicate SameIdentity(a: Subscription, b: Subscription) {
    && a.id == b.id && a.email == b.email
    && a.repoOwner == b.repoOwner && a.repoName == b.repoName
    && a.confirmToken == b.confirmToken && a.unsubscribeToken == b.unsubscribeToken
  }
}
