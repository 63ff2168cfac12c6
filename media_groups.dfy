/** The media-group aggregator's pure part: the registry of pending albums
    keyed by group id, how an arriving item is filed, and the two time tests
    (the settle check's quiet period and the sweep's staleness). Time is an
    explicit `now` in milliseconds. */
module MediaGroups {
  import opened Telegram

  /** A group settles only when its last item is more than this old (0.5 s). */
  const SettleQuietMs: int := 500

  /** The sweep reclaims a group whose first item is more than this old (1 hour). */
  const StaleAfterMs: int := 3_600_000

  /** The moment a message was sent, in milliseconds (`date` is in whole seconds). */
  function SentAtMs(m: Message): int
  {
    m.date * 1000
  }

  /** The pending albums: group id to the items received so far, in arrival order. */
  type Groups = map<string, seq<Message>>

  /** The items filed under `g`, with a missing group read as the empty list (Go's nil slice). */
  function GroupOf(groups: Groups, g: string): seq<Message>
  {
    if g in groups then groups[g] else []
  }

  /** The registry after `m` arrives: `m` goes to the end of its group's list. */
  function Arrive(groups: Groups, m: Message): (r: Groups)
    ensures m.mediaGroupId in r && r[m.mediaGroupId] == GroupOf(groups, m.mediaGroupId) + [m]
    ensures forall g :: g != m.mediaGroupId ==> GroupOf(r, g) == GroupOf(groups, g) && (g in r <==> g in groups)
  {
    groups[m.mediaGroupId := GroupOf(groups, m.mediaGroupId) + [m]]
  }

  /** The registry after each of `ms` arrives in turn. */
  function ArriveAll(groups: Groups, ms: seq<Message>): Groups
    decreases |ms|
  {
    if ms == [] then groups else Arrive(ArriveAll(groups, ms[..|ms| - 1]), ms[|ms| - 1])
  }

  /** The messages of `ms` that belong to group `g`, in their order in `ms`. */
  function InGroup(ms: seq<Message>, g: string): seq<Message>
    decreases |ms|
  {
    if ms == [] then []
    else InGroup(ms[..|ms| - 1], g) + (if ms[|ms| - 1].mediaGroupId == g then [ms[|ms| - 1]] else [])
  }

  /** Arrival order is kept: after a run of arrivals, each group holds what it
      held before followed by exactly its own arrivals, in the order they came. */
  lemma {:induction false} ArrivalOrderKept(groups: Groups, ms: seq<Message>, g: string)
    ensures GroupOf(ArriveAll(groups, ms), g) == GroupOf(groups, g) + InGroup(ms, g)
    decreases |ms|
  {
    if ms != [] {
      ArrivalOrderKept(groups, ms[..|ms| - 1], g);
    }
  }

  /** The settle check's quiet test (main.go:209-216): false on an empty list,
      otherwise whether the last item is more than half a second old. */
  function IsLastMediaGroupMessage(ms: seq<Message>, now: int): (quiet: bool)
    ensures ms == [] ==> !quiet
    ensures ms != [] ==> (quiet <==> SentAtMs(ms[|ms| - 1]) < now - SettleQuietMs)
  {
    if |ms| == 0 then false
    else
      var lastTime := SentAtMs(ms[|ms| - 1]);
      now - lastTime > SettleQuietMs
  }

  /** Whether the deferred check for group `g` sends and deletes it (main.go:195-200):
      the group exists, has more than one item, and has been quiet. */
  function ReadyToSettle(groups: Groups, g: string, now: int): (ready: bool)
    ensures ready <==> g in groups && |groups[g]| >= 2 && SentAtMs(groups[g][|groups[g]| - 1]) < now - SettleQuietMs
  {
    if g in groups then |groups[g]| > 1 && IsLastMediaGroupMessage(groups[g], now) else false
  }

  /** A one-item group never settles, whatever the time: it waits for the sweep. */
  lemma SingleItemNeverSettles(groups: Groups, g: string, now: int)
    requires g in groups && |groups[g]| == 1
    ensures !ReadyToSettle(groups, g, now)
  {
  }

  /** Once quiet, a group stays quiet for every later check, until another item arrives. */
  lemma QuietStaysQuiet(ms: seq<Message>, now: int, later: int)
    requires IsLastMediaGroupMessage(ms, now) && now <= later
    ensures IsLastMediaGroupMessage(ms, later)
  {
  }

  /** The sweep's test (main.go:105-107): the group is non-empty and its first
      item is more than an hour old. */
  function IsStale(ms: seq<Message>, now: int): (stale: bool)
    ensures stale <==> ms != [] && SentAtMs(ms[0]) < now - StaleAfterMs
  {
    |ms| > 0 && now - SentAtMs(ms[0]) > StaleAfterMs
  }

  /** Once stale, a group stays stale for every later sweep. */
  lemma StaleStaysStale(ms: seq<Message>, now: int, later: int)
    requires IsStale(ms, now) && now <= later
    ensures IsStale(ms, later)
  {
  }
}
