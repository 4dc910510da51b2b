/** The lazy job stream that follows page links (zizq/src/list_jobs.rs). */
module Paging {
  import opened Wrappers

  type Url = string

  /** The list-valued filters; an explicitly empty one can match no job. */
  datatype Filters = Filters(
    status: Option<seq<string>>,
    queue: Option<seq<string>>,
    jobType: Option<seq<string>>,
    id: Option<seq<string>>,
    budgetsKey: Option<seq<string>>)
  {
    predicate MatchesNothing() {
      Some([]) in {status, queue, jobType, id, budgetsKey}
    }
  }

  /** Turning a server-emitted path into a URL, which may refuse it. */
  type Resolver = string -> Option<Url>

  datatype Cursor = First(url: Url) | Next(path: string) | Done

  /** What polling the request in flight gives. */
  datatype Event<+Job> = NotYet | Page(jobs: seq<Job>, next: Option<string>) | Fails

  datatype Poll<+Job> = Pending | Got(job: Job) | Failed | Ended

  /** `waiting`: a request is in flight. `live`: neither an error nor the end has been
      reached. `events` is what the requests will get; `log` is what was requested. */
  datatype Stream<+Job> = Stream(
    buffer: seq<Job>, cursor: Cursor, waiting: bool, live: bool, events: seq<Event<Job>>, log: seq<Url>)

  function CursorOf(next: Option<string>): Cursor {
    match next
    case Some(path) => Next(path)
    case None => Done
  }

  /** The request a cursor stands for; none at the end or for a refused path. */
  function Target(c: Cursor, resolve: Resolver): Option<Url> {
    match c
    case First(url) => Some(url)
    case Next(path) => resolve(path)
    case Done => None
  }

  // --- One poll ---

  function PollStep<Job>(s: Stream<Job>, resolve: Resolver): (r: (Poll<Job>, Stream<Job>))
    decreases |s.events|, !s.waiting
  {
    if !s.live then (Ended, s)
    else if s.waiting then
      if s.events == [] then (Pending, s)
      else
        var rest := s.(events := s.events[1..]);
        match s.events[0]
        case NotYet => (Pending, rest)
        case Fails => (Failed, rest.(waiting := false, live := false))
        case Page(jobs, next) => PollStep(rest.(waiting := false, buffer := jobs, cursor := CursorOf(next)), resolve)
    else if s.buffer != [] then (Got(s.buffer[0]), s.(buffer := s.buffer[1..]))
    else
      var url := Target(s.cursor, resolve);
      if s.cursor.Done? then (Ended, s.(live := false))
      else if url.None? then (Failed, s.(cursor := Done, live := false))
      else PollStep(s.(cursor := Done, waiting := true, log := s.log + [url.value]), resolve)
  }

  class JobStream<Job(!new)> {
    var buffer: seq<Job>
    var cursor: Cursor
    var waiting: bool
    var live: bool
    var events: seq<Event<Job>>
    var log: seq<Url>
    const resolve: Resolver

    ghost function State(): Stream<Job>
      reads this
    {
      Stream(buffer, cursor, waiting, live, events, log)
    }

    constructor (filters: Filters, url: Url, resolve: Resolver, events: seq<Event<Job>>)
      ensures this.resolve == resolve
      ensures State() == Start(
        if filters.status == Some([]) || filters.queue == Some([]) || filters.jobType == Some([])
           || filters.id == Some([]) || filters.budgetsKey == Some([]) then Done else First(url), events)
    {
      if filters.MatchesNothing() {
        cursor := Done;
      } else {
        cursor := First(url);
      }
      buffer, waiting, live, log := [], false, true, [];
      this.events, this.resolve := events, resolve;
    }

    method PollNext() returns (p: Poll<Job>)
      modifies this
      ensures (p, State()) == PollStep(old(State()), resolve)
    {
      while true
        invariant PollStep(State(), resolve) == PollStep(old(State()), resolve)
        decreases |events|, !waiting
      {
        if !live {
          return Ended;
        }
        if waiting {
          if events == [] {
            return Pending;
          }
          var event := events[0];
          events := events[1..];
          match event {
            case NotYet => return Pending;
            case Fails =>
              waiting, live := false, false;
              return Failed;
            case Page(jobs, next) =>
              waiting, buffer, cursor := false, jobs, CursorOf(next);
          }
        } else {
          if buffer != [] {
            var job := buffer[0];
            buffer := buffer[1..];
            return Got(job);
          }
          // The cursor is taken out before the request goes off.
          var taken := cursor;
          cursor := Done;
          match taken {
            case First(url) =>
              log, waiting := log + [url], true;
            case Next(path) =>
              match resolve(path) {
                case Some(url) =>
                  log, waiting := log + [url], true;
                case None =>
                  live := false;
                  return Failed;
              }
            case Done =>
              live := false;
              return Ended;
          }
        }
      }
    }
  }

  function Start<Job>(cursor: Cursor, events: seq<Event<Job>>): Stream<Job> {
    Stream([], cursor, false, true, events, [])
  }

  // --- The whole listing, page by page ---

  datatype Item<+Job> = Job(job: Job) | Error

  function Jobs<Job>(jobs: seq<Job>): (r: seq<Item<Job>>)
    ensures |r| == |jobs|
  {
    seq(|jobs|, i requires 0 <= i < |jobs| => Item.Job(jobs[i]))
  }

  /** What a cursor leads to: the items, the requests made for them, and whether the
      listing ends rather than waiting for one more reply. */
  datatype Listing<+Job> = Listing(items: seq<Item<Job>>, requests: seq<Url>, ends: bool)

  /** The pages in order: each fetched once, up to the first error or the last page. */
  function Follow<Job>(c: Cursor, events: seq<Event<Job>>, resolve: Resolver): Listing<Job>
    decreases |events|, 1
  {
    if c.Done? then Listing([], [], true)
    else
      var url := Target(c, resolve);
      if url.None? then Listing([Error], [], true)
      else
        var rest := Await(events, resolve);
        Listing(rest.items, [url.value] + rest.requests, rest.ends)
  }

  function Await<Job>(events: seq<Event<Job>>, resolve: Resolver): Listing<Job>
    decreases |events|, 0
  {
    if events == [] then Listing([], [], false)
    else
      match events[0]
      case NotYet => Await(events[1..], resolve)
      case Fails => Listing([Error], [], true)
      case Page(jobs, next) =>
        var rest := Follow(CursorOf(next), events[1..], resolve);
        Listing(Jobs(jobs) + rest.items, rest.requests, rest.ends)
  }

  /** What is still to come from a stream. */
  function Ahead<Job>(s: Stream<Job>, resolve: Resolver): Listing<Job> {
    if !s.live then Listing([], [], true)
    else if s.waiting then Await(s.events, resolve)
    else
      var rest := Follow(s.cursor, s.events, resolve);
      Listing(Jobs(s.buffer) + rest.items, rest.requests, rest.ends)
  }

  /** The item a poll hands out, if it hands one out. */
  function Handed<Job>(p: Poll<Job>): seq<Item<Job>> {
    match p
    case Got(job) => [Item.Job(job)]
    case Failed => [Error]
    case _ => []
  }

  /** Only a stream with nothing buffered has a request in flight. */
  predicate Lazy<Job>(s: Stream<Job>) {
    s.waiting ==> s.buffer == []
  }

  /** Sending the request a cursor stands for takes it off what lies ahead. */
  lemma RequestAhead<Job>(s: Stream<Job>, resolve: Resolver)
    requires s.live && !s.waiting && s.buffer == [] && Target(s.cursor, resolve).Some?
    ensures var url := Target(s.cursor, resolve).value;
            var t := s.(cursor := Done, waiting := true, log := s.log + [url]);
            var a, b := Ahead(s, resolve), Ahead(t, resolve);
            a.items == b.items && a.requests == [url] + b.requests && a.ends == b.ends
  {
    assert Jobs(s.buffer) == [];
  }

  /** `p` is the next item of what lies ahead of `s`, and `t` has the rest ahead. */
  predicate Follows<Job(==)>(s: Stream<Job>, p: Poll<Job>, t: Stream<Job>, resolve: Resolver) {
    && Lazy(t)
    && Ahead(s, resolve).items == Handed(p) + Ahead(t, resolve).items
    && s.log + Ahead(s, resolve).requests == t.log + Ahead(t, resolve).requests
    && Ahead(s, resolve).ends == Ahead(t, resolve).ends
    && (p.Ended? ==> Ahead(s, resolve).items == [] && Ahead(s, resolve).ends)
    && ((p.Ended? || p.Failed?) <==> !t.live)
  }

  /** A poll that neither takes a page in nor sends a request. */
  lemma PlainPollFollows<Job>(s: Stream<Job>, resolve: Resolver)
    requires Lazy(s)
    requires !(s.live && s.waiting && s.events != [] && s.events[0].Page?)
    requires !(s.live && !s.waiting && s.buffer == [] && Target(s.cursor, resolve).Some?)
    ensures var (p, t) := PollStep(s, resolve); Follows(s, p, t, resolve)
  {
    if s.live && !s.waiting && s.buffer != [] {
      assert Jobs(s.buffer) == [Item.Job(s.buffer[0])] + Jobs(s.buffer[1..]);
    }
  }

  /** A poll hands out the next item of the listing and makes the next requests of it;
      nothing is skipped, repeated or asked for twice. */
  lemma {:induction false} PollFollows<Job>(s: Stream<Job>, resolve: Resolver)
    requires Lazy(s)
    ensures var (p, t) := PollStep(s, resolve); Follows(s, p, t, resolve)
    decreases |s.events|, !s.waiting
  {
    if s.live && s.waiting && s.events != [] && s.events[0].Page? {
      var page := s.events[0];
      PollFollows(s.(events := s.events[1..], waiting := false, buffer := page.jobs, cursor := CursorOf(page.next)), resolve);
    } else if s.live && !s.waiting && s.buffer == [] && Target(s.cursor, resolve).Some? {
      var url := Target(s.cursor, resolve).value;
      var t := s.(cursor := Done, waiting := true, log := s.log + [url]);
      PollFollows(t, resolve);
      RequestAhead(s, resolve);
      assert s.log + ([url] + Ahead(t, resolve).requests) == t.log + Ahead(t, resolve).requests;
    } else {
      PlainPollFollows(s, resolve);
    }
  }

  // --- Runs of polls ---

  /** Everything `n` polls hand out, and the stream after them. */
  function Run<Job>(s: Stream<Job>, resolve: Resolver, n: nat): (seq<Item<Job>>, Stream<Job>) {
    if n == 0 then ([], s)
    else
      var (items, t) := Run(s, resolve, n - 1);
      var (p, u) := PollStep(t, resolve);
      (items + Handed(p), u)
  }

  /** After any number of polls, what was handed out and requested is a prefix of the
      listing, and what is still to come is the rest of it. */
  lemma {:induction false} RunFollows<Job>(c: Cursor, events: seq<Event<Job>>, resolve: Resolver, n: nat)
    ensures var whole := Follow(c, events, resolve);
            var (items, t) := Run(Start(c, events), resolve, n);
            && Lazy(t)
            && whole.items == items + Ahead(t, resolve).items
            && whole.requests == t.log + Ahead(t, resolve).requests
            && whole.ends == Ahead(t, resolve).ends
  {
    if n == 0 {
      assert Jobs<Job>([]) == [];
    } else {
      RunFollows(c, events, resolve, n - 1);
      PollFollows(Run(Start(c, events), resolve, n - 1).1, resolve);
    }
  }

  /** A stream that has ended has handed out the whole listing, and stays ended. */
  lemma EndedHasAll<Job>(c: Cursor, events: seq<Event<Job>>, resolve: Resolver, n: nat)
    requires !Run(Start(c, events), resolve, n).1.live
    ensures var whole := Follow(c, events, resolve);
            var (items, t) := Run(Start(c, events), resolve, n);
            && items == whole.items && t.log == whole.requests && whole.ends
            && PollStep(t, resolve) == (Ended, t)
  {
    RunFollows(c, events, resolve, n);
  }

  /** Polls left at most until a listing that ends has ended. */
  function PollsLeft<Job>(s: Stream<Job>, resolve: Resolver): nat {
    |s.events| + |Ahead(s, resolve).items| + if s.live then 1 else 0
  }

  lemma {:induction false} PollConsumes<Job>(s: Stream<Job>, resolve: Resolver)
    ensures |PollStep(s, resolve).1.events| <= |s.events|
    ensures PollStep(s, resolve).0.Pending? && s.events != [] ==> |PollStep(s, resolve).1.events| < |s.events|
    ensures PollStep(s, resolve).0.Pending? && s.events == [] ==> !Ahead(s, resolve).ends
    decreases |s.events|, !s.waiting
  {
    if s.live && s.waiting && s.events != [] && s.events[0].Page? {
      var page := s.events[0];
      PollConsumes(s.(events := s.events[1..], waiting := false, buffer := page.jobs, cursor := CursorOf(page.next)), resolve);
    } else if s.live && !s.waiting && s.buffer == [] && Target(s.cursor, resolve).Some? {
      PollConsumes(s.(cursor := Done, waiting := true, log := s.log + [Target(s.cursor, resolve).value]), resolve);
    }
  }

  lemma {:induction false} RunShrinks<Job>(c: Cursor, events: seq<Event<Job>>, resolve: Resolver, n: nat)
    requires Follow(c, events, resolve).ends
    ensures var t := Run(Start(c, events), resolve, n).1;
            t.live ==> PollsLeft(t, resolve) + n <= PollsLeft(Start(c, events), resolve)
  {
    if n > 0 {
      RunShrinks(c, events, resolve, n - 1);
      RunFollows(c, events, resolve, n - 1);
      var t := Run(Start(c, events), resolve, n - 1).1;
      PollFollows(t, resolve);
      PollConsumes(t, resolve);
    }
  }

  /** A listing that ends is handed out whole after finitely many polls. */
  lemma ListingEnds<Job>(c: Cursor, events: seq<Event<Job>>, resolve: Resolver) returns (n: nat)
    requires Follow(c, events, resolve).ends
    ensures !Run(Start(c, events), resolve, n).1.live
    ensures Run(Start(c, events), resolve, n).0 == Follow(c, events, resolve).items
  {
    n := PollsLeft(Start(c, events), resolve);
    RunShrinks(c, events, resolve, n);
    EndedHasAll(c, events, resolve, n);
  }

  /** An explicitly empty filter: nothing is handed out and nothing is requested. */
  lemma EmptyFilterAsksNothing<Job>(events: seq<Event<Job>>, resolve: Resolver, n: nat)
    ensures var (items, t) := Run(Start(Done, events), resolve, n); items == [] && t.log == []
  {
    RunFollows(Done, events, resolve, n);
  }

  /** An error is the last item of a listing. */
  lemma {:induction false} ErrorIsLast<Job>(c: Cursor, events: seq<Event<Job>>, resolve: Resolver)
    ensures forall i :: 0 <= i < |Follow(c, events, resolve).items| - 1 ==> Follow(c, events, resolve).items[i].Job?
    decreases |events|, 1
  {
    if Target(c, resolve).Some? {
      ErrorEndsPage(events, resolve);
    }
  }

  lemma {:induction false} ErrorEndsPage<Job>(events: seq<Event<Job>>, resolve: Resolver)
    ensures forall i :: 0 <= i < |Await(events, resolve).items| - 1 ==> Await(events, resolve).items[i].Job?
    decreases |events|, 0
  {
    if events != [] {
      match events[0] {
        case NotYet => ErrorEndsPage(events[1..], resolve);
        case Fails =>
        case Page(jobs, next) => ErrorIsLast(CursorOf(next), events[1..], resolve);
      }
    }
  }

  // --- Laziness ---

  /** The jobs of the pages among the events received. */
  function Received<Job>(events: seq<Event<Job>>): seq<Item<Job>> {
    if events == [] then []
    else
      var last := events[|events| - 1];
      Received(events[..|events| - 1]) + if last.Page? then Jobs(last.jobs) else []
  }

  function Pages<Job>(events: seq<Event<Job>>): nat {
    if events == [] then 0 else Pages(events[..|events| - 1]) + if events[|events| - 1].Page? then 1 else 0
  }

  /** What the stream has of the first `k` events: the jobs handed out so far and the
      buffer are all the jobs received, and one request was made for each page received
      and for the one in flight, if there is one. */
  ghost predicate Holds<Job>(got: seq<Item<Job>>, s: Stream<Job>, whole: seq<Event<Job>>, k: nat) {
    && k <= |whole| && s.events == whole[k..] && Lazy(s)
    && (s.live ==>
          && got + Jobs(s.buffer) == Received(whole[..k])
          && |s.log| == Pages(whole[..k]) + if s.waiting then 1 else 0)
  }

  lemma Receive<Job>(whole: seq<Event<Job>>, k: nat)
    requires k < |whole|
    ensures Received(whole[..k + 1]) == Received(whole[..k]) + if whole[k].Page? then Jobs(whole[k].jobs) else []
    ensures Pages(whole[..k + 1]) == Pages(whole[..k]) + if whole[k].Page? then 1 else 0
    ensures whole[k..][1..] == whole[k + 1..]
  {
    assert whole[..k + 1][..k] == whole[..k];
  }

  lemma {:induction false} PollHolds<Job>(got: seq<Item<Job>>, s: Stream<Job>, resolve: Resolver, whole: seq<Event<Job>>, k: nat)
    returns (j: nat)
    requires Holds(got, s, whole, k)
    ensures var (p, t) := PollStep(s, resolve); Holds(got + Handed(p), t, whole, j)
    decreases |s.events|, !s.waiting
  {
    j := k;
    assert got + [] == got;
    if s.live && s.waiting && s.events != [] {
      Receive(whole, k);
      j := k + 1;
      var event := s.events[0];
      if event.Page? {
        assert Jobs(s.buffer) == [];
        j := PollHolds(got, s.(events := s.events[1..], waiting := false, buffer := event.jobs, cursor := CursorOf(event.next)),
                       resolve, whole, k + 1);
      }
    } else if s.live && !s.waiting && s.buffer == [] && Target(s.cursor, resolve).Some? {
      var url := Target(s.cursor, resolve).value;
      j := PollHolds(got, s.(cursor := Done, waiting := true, log := s.log + [url]), resolve, whole, k);
    } else if s.live && !s.waiting && s.buffer != [] {
      assert Jobs(s.buffer) == [Item.Job(s.buffer[0])] + Jobs(s.buffer[1..]);
    }
  }

  /** Pages are fetched lazily: in every run a request is in flight only when every job
      received before it has been handed out, and no more than that one is. */
  lemma {:induction false} FetchesLazily<Job>(c: Cursor, events: seq<Event<Job>>, resolve: Resolver, n: nat) returns (k: nat)
    ensures var (items, t) := Run(Start(c, events), resolve, n);
            && Holds(items, t, events, k)
            && (t.live && t.waiting ==> items == Received(events[..k]) && |t.log| == Pages(events[..k]) + 1)
  {
    if n == 0 {
      k := 0;
      assert Jobs<Job>([]) == [] && events[..0] == [];
    } else {
      k := FetchesLazily(c, events, resolve, n - 1);
      var (items, t) := Run(Start(c, events), resolve, n - 1);
      k := PollHolds(items, t, resolve, events, k);
    }
  }

  // --- Chains of pages, as data ---

  /** The replies among the events, waiting aside. */
  function Replies<Job>(events: seq<Event<Job>>): seq<Event<Job>> {
    if events == [] then [] else (if events[0].NotYet? then [] else [events[0]]) + Replies(events[1..])
  }

  /** The first `k` replies are pages whose links lead on. */
  predicate LeadsOn<Job>(replies: seq<Event<Job>>, k: nat, resolve: Resolver) {
    && k <= |replies|
    && forall i :: 0 <= i < k ==>
         replies[i].Page? && replies[i].next.Some? && resolve(replies[i].next.value).Some?
  }

  /** The URL of the first page, then the resolved link of each page in turn. */
  function Urls<Job>(url: Url, replies: seq<Event<Job>>, k: nat, resolve: Resolver): (r: seq<Url>)
    requires LeadsOn(replies, k, resolve)
    ensures |r| == k + 1 && r[0] == url
  {
    if k == 0 then [url] else Urls(url, replies, k - 1, resolve) + [resolve(replies[k - 1].next.value).value]
  }

  function PageJobs<Job>(replies: seq<Event<Job>>, k: nat): seq<Item<Job>>
    requires k <= |replies| && forall i :: 0 <= i < k ==> replies[i].Page?
  {
    if k == 0 then []
    else
      var jobs := replies[k - 1].jobs;
      PageJobs(replies, k - 1) + seq(|jobs|, i requires 0 <= i < |jobs| => Item.Job(jobs[i]))
  }

  /** What a chain of `k` pages that lead on gives, by what comes after it: nothing yet,
      a failure, a last page, or a page whose link is refused. */
  ghost predicate ChainGives<Job>(url: Url, replies: seq<Event<Job>>, k: nat, resolve: Resolver, listing: Listing<Job>)
    requires LeadsOn(replies, k, resolve)
  {
    && listing.requests == Urls(url, replies, k, resolve)
    && (k == |replies| ==> listing.items == PageJobs(replies, k) && !listing.ends)
    && (k < |replies| && replies[k].Fails? ==> listing.items == PageJobs(replies, k) + [Error] && listing.ends)
    && (k < |replies| && replies[k].Page? && replies[k].next.None? ==>
          listing.items == PageJobs(replies, k + 1) && listing.ends)
    && (k < |replies| && replies[k].Page? && replies[k].next.Some? && resolve(replies[k].next.value).None? ==>
          listing.items == PageJobs(replies, k + 1) + [Error] && listing.ends)
  }

  lemma {:induction false} UrlsFront<Job>(url: Url, replies: seq<Event<Job>>, k: nat, resolve: Resolver)
    requires 0 < k && LeadsOn(replies, k, resolve)
    ensures LeadsOn(replies[1..], k - 1, resolve)
    ensures Urls(url, replies, k, resolve)
         == [url] + Urls(resolve(replies[0].next.value).value, replies[1..], k - 1, resolve)
  {
    if k > 1 {
      UrlsFront(url, replies, k - 1, resolve);
    }
  }

  lemma {:induction false} JobsFront<Job>(replies: seq<Event<Job>>, k: nat)
    requires 0 < k <= |replies| && forall i :: 0 <= i < k ==> replies[i].Page?
    ensures PageJobs(replies, k) == Jobs(replies[0].jobs) + PageJobs(replies[1..], k - 1)
  {
    if k > 1 {
      JobsFront(replies, k - 1);
      assert replies[1..][k - 2] == replies[k - 1];
    }
  }

  /** One page more in front of a chain. */
  lemma ChainCons<Job>(url: Url, replies: seq<Event<Job>>, k: nat, resolve: Resolver, rest: Listing<Job>)
    requires k > 0 && LeadsOn(replies, k, resolve) && LeadsOn(replies[1..], k - 1, resolve)
    requires ChainGives(resolve(replies[0].next.value).value, replies[1..], k - 1, resolve, rest)
    ensures ChainGives(url, replies, k, resolve, Listing(Jobs(replies[0].jobs) + rest.items, [url] + rest.requests, rest.ends))
  {
    hide Urls, PageJobs, Jobs;
    UrlsFront(url, replies, k, resolve);
    JobsFront(replies, k);
    if k < |replies| {
      assert replies[1..][k - 1] == replies[k];
      if replies[k].Page? {
        JobsFront(replies, k + 1);
        assert Jobs(replies[0].jobs) + (PageJobs(replies[1..], k) + [Error]) == PageJobs(replies, k + 1) + [Error];
      } else {
        assert Jobs(replies[0].jobs) + (PageJobs(replies[1..], k - 1) + [Error]) == PageJobs(replies, k) + [Error];
      }
    }
  }

  lemma LastPage<Job>(url: Url, replies: seq<Event<Job>>, resolve: Resolver)
    requires replies != [] && replies[0].Page? && (replies[0].next.None? || resolve(replies[0].next.value).None?)
    ensures var page := replies[0];
            ChainGives(url, replies, 0, resolve, Listing(Jobs(page.jobs) + if page.next.None? then [] else [Error], [url], true))
  {
    assert PageJobs(replies, 1) == PageJobs(replies, 0) + Jobs(replies[0].jobs) == Jobs(replies[0].jobs);
    assert Jobs(replies[0].jobs) + [] == Jobs(replies[0].jobs);
  }

  lemma {:induction false} AwaitChain<Job>(url: Url, events: seq<Event<Job>>, k: nat, resolve: Resolver)
    requires LeadsOn(Replies(events), k, resolve) && !LeadsOn(Replies(events), k + 1, resolve)
    ensures var a := Await(events, resolve);
            ChainGives(url, Replies(events), k, resolve, Listing(a.items, [url] + a.requests, a.ends))
    decreases |events|
  {
    var replies := Replies(events);
    if events != [] {
      if events[0].NotYet? {
        assert [] + Replies(events[1..]) == Replies(events[1..]);
        AwaitChain(url, events[1..], k, resolve);
      } else {
        assert replies[0] == events[0] && replies[1..] == Replies(events[1..]);
        if events[0].Fails? {
          assert [url] + [] == [url] && [] + [Error] == [Item<Job>.Error];
        } else if k > 0 {
          UrlsFront(url, replies, k, resolve);
          var second := resolve(events[0].next.value).value;
          assert !LeadsOn(replies[1..], k, resolve);
          AwaitChain(second, events[1..], k - 1, resolve);
          var rest := Await(events[1..], resolve);
          ChainCons(url, replies, k, resolve, Listing(rest.items, [second] + rest.requests, rest.ends));
        } else {
          assert !LeadsOn(replies, 1, resolve) && [url] + [] == [url];
          LastPage(url, replies, resolve);
        }
      }
    }
  }

  /** The listing of a chain of pages: the jobs of its pages in order up to the first
      page without a link, and one request for each, the link of the page before it. */
  lemma ListingOfChain<Job>(url: Url, events: seq<Event<Job>>, k: nat, resolve: Resolver)
    requires LeadsOn(Replies(events), k, resolve) && !LeadsOn(Replies(events), k + 1, resolve)
    ensures ChainGives(url, Replies(events), k, resolve, Follow(First(url), events, resolve))
  {
    AwaitChain(url, events, k, resolve);
  }

  /** And so polled: a chain that has a last page is handed out whole, each page asked
      for once. */
  lemma ChainHandedOut<Job>(url: Url, events: seq<Event<Job>>, k: nat, resolve: Resolver) returns (n: nat)
    requires LeadsOn(Replies(events), k, resolve) && k < |Replies(events)|
    requires Replies(events)[k].Page? && Replies(events)[k].next.None?
    ensures var (items, t) := Run(Start(First(url), events), resolve, n);
            !t.live && items == PageJobs(Replies(events), k + 1) && t.log == Urls(url, Replies(events), k, resolve)
  {
    ListingOfChain(url, events, k, resolve);
    n := ListingEnds(First(url), events, resolve);
    EndedHasAll(First(url), events, resolve, n);
  }
}
