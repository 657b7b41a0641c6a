/** The only source of server time: what the restricted transport remembers of the responses it saw. */
module ServerObservers {
  import opened Clock
  import opened Options

  type Digest = string

  datatype Endpoint = Tools | TokenPost | Elsewhere

  /** One response, or one refused reauthorization. `bearer` is the digest of the token that was presented. */
  datatype Event =
    | Response(endpoint: Endpoint, bearer: Option<Digest>, status: int, date: Option<Time>)
    | Refused

  predicate Authenticated(e: Event) {
    e.Response? && e.endpoint.Tools? && e.bearer.Some? && e.date.Some? && 200 <= e.status < 300
  }

  predicate Denied(e: Event) { e.Response? && e.endpoint.Tools? && e.bearer.Some? && e.status == 401 }

  predicate Issued(e: Event) { e.Response? && e.endpoint.TokenPost? && e.date.Some? && e.status == 200 }

  predicate IsRefusal(e: Event) { e.Refused? }

  /** What counts: a dated success of a tool call with a token, its denial, and a dated token answer. */
  lemma WhatCounts(e: Event, bearer: Option<Digest>, status: int, date: Option<Time>)
    ensures Authenticated(Response(Tools, bearer, status, date))
            <==> bearer.Some? && date.Some? && status / 100 == 2
    ensures Denied(Response(Tools, bearer, status, date)) <==> bearer.Some? && status == 401
    ensures Issued(Response(TokenPost, bearer, status, date)) <==> date.Some? && status == 200
    ensures Authenticated(e) || Denied(e) ==> e.Response? && e.endpoint == Tools
    ensures Issued(e) ==> e.Response? && e.endpoint == TokenPost
    ensures !Authenticated(Refused) && !Denied(Refused) && !Issued(Refused) && (IsRefusal(e) <==> e == Refused)
  {
  }

  /** How many events there are up to and including the last of this kind; zero without one. */
  function LastOf(history: seq<Event>, kind: Event -> bool): (n: nat)
    ensures n <= |history| && (n > 0 ==> kind(history[n - 1]))
    ensures forall i :: n <= i < |history| ==> !kind(history[i])
  {
    if history == [] then 0
    else if kind(history[|history| - 1]) then |history|
    else LastOf(history[..|history| - 1], kind)
  }

  function FirstOf(history: seq<Event>, kind: Event -> bool): (n: nat)
    ensures n <= |history| && (n < |history| ==> kind(history[n]))
    ensures forall i :: 0 <= i < n ==> !kind(history[i])
  {
    if history == [] || kind(history[0]) then 0 else 1 + FirstOf(history[1..], kind)
  }

  lemma {:induction false} FirstKept(history: seq<Event>, e: Event, kind: Event -> bool)
    ensures FirstOf(history + [e], kind) == if FirstOf(history, kind) < |history| || !kind(e) then
              (if FirstOf(history, kind) < |history| then FirstOf(history, kind) else |history| + 1) else |history|
  {
    if history != [] && !kind(history[0]) {
      assert (history + [e])[1..] == history[1..] + [e];
      FirstKept(history[1..], e, kind);
    } else if history == [] {
      assert (history + [e])[1..] == [];
    }
  }

  lemma LastKept(history: seq<Event>, e: Event, kind: Event -> bool)
    ensures LastOf(history + [e], kind) == if kind(e) then |history| + 1 else LastOf(history, kind)
  {
    assert (history + [e])[..|history|] == history;
  }

  ghost predicate FirstAndLastIssued(history: seq<Event>, i: int, j: int) {
    && 0 <= i <= j < |history| && Issued(history[i]) && Issued(history[j])
    && (forall k :: 0 <= k < i ==> !Issued(history[k]))
    && (forall k :: j < k < |history| ==> !Issued(history[k]))
  }

  // ---------------------------------------------------------------- what is kept

  datatype Records = Records(
    count: nat, authenticated: Option<(nat, Time)>, denied: Option<(nat, Option<Time>, Digest)>,
    firstToken: Option<Time>, latestToken: Option<Time>, refusedAt: nat)

  /** One event changes at most one record. */
  function Recorded(r: Records, e: Event): Records {
    var next := r.(count := r.count + 1);
    if e.Refused? then next.(refusedAt := next.count)
    else if Authenticated(e) then next.(authenticated := Some((next.count, e.date.value)))
    else if Denied(e) then next.(denied := Some((next.count, e.date, e.bearer.value)))
    else if Issued(e) then
      next.(firstToken := if r.firstToken.None? then e.date else r.firstToken, latestToken := e.date)
    else next
  }

  function RecordsOf(history: seq<Event>): Records {
    if history == [] then Records(0, None, None, None, None, 0)
    else Recorded(RecordsOf(history[..|history| - 1]), history[|history| - 1])
  }

  lemma {:induction false} RecordsGrow(history: seq<Event>, e: Event)
    ensures RecordsOf(history + [e]) == Recorded(RecordsOf(history), e)
  {
    assert (history + [e])[..|history|] == history;
  }

  lemma {:induction false} CountsMean(history: seq<Event>)
    ensures RecordsOf(history).count == |history| && RecordsOf(history).refusedAt == LastOf(history, IsRefusal)
  {
    if history != [] {
      var before, e := history[..|history| - 1], history[|history| - 1];
      CountsMean(before);
      assert history == before + [e];
      LastKept(before, e, IsRefusal);
    }
  }

  /** What is kept of an authenticated answer is the number and the date of the last one. */
  lemma {:induction false} AuthenticatedMeans(history: seq<Event>)
    ensures var n := LastOf(history, Authenticated);
            RecordsOf(history).authenticated == if n == 0 then None else Some((n, history[n - 1].date.value))
  {
    if history != [] {
      var before, e := history[..|history| - 1], history[|history| - 1];
      AuthenticatedMeans(before);
      CountsMean(before);
      assert RecordsOf(history) == Recorded(RecordsOf(before), e);
    }
  }

  /** What is kept of a denial is the number, the date and the token of the last one. */
  lemma {:induction false} DeniedMeans(history: seq<Event>)
    ensures var n := LastOf(history, Denied);
            RecordsOf(history).denied
            == if n == 0 then None else Some((n, history[n - 1].date, history[n - 1].bearer.value))
  {
    if history != [] {
      var before, e := history[..|history| - 1], history[|history| - 1];
      DeniedMeans(before);
      CountsMean(before);
      assert history == before + [e];
      LastKept(before, e, Denied);
    }
  }

  /** The token dates kept are the first one and the last one. */
  lemma {:induction false} TokensMean(history: seq<Event>)
    ensures var r, i, n := RecordsOf(history), FirstOf(history, Issued), LastOf(history, Issued);
            && r.firstToken == (if i == |history| then None else history[i].date)
            && r.latestToken == (if n == 0 then None else history[n - 1].date)
  {
    if history != [] {
      var before, e := history[..|history| - 1], history[|history| - 1];
      TokensMean(before);
      assert history == before + [e];
      FirstKept(before, e, Issued);
    }
  }

  /** Only counters, dates and one digest are kept; the history is what they are about. */
  class ServerObserver {
    var count: nat
    var authenticated: Option<(nat, Time)>
    var denied: Option<(nat, Option<Time>, Digest)>
    var firstToken: Option<Time>
    var latestToken: Option<Time>
    var refusedAt: nat
    ghost var history: seq<Event>

    ghost function Kept(): Records
      reads this
    {
      Records(count, authenticated, denied, firstToken, latestToken, refusedAt)
    }

    ghost predicate Valid()
      reads this
    {
      Kept() == RecordsOf(history)
    }

    constructor ()
      ensures Valid() && history == []
    {
      count, authenticated, denied, firstToken, latestToken, refusedAt, history := 0, None, None, None, None, 0, [];
    }

    method RoundTrip(endpoint: Endpoint, bearer: Option<Digest>, status: int, date: Option<Time>)
      requires Valid()
      modifies this
      ensures Valid() && history == old(history) + [Response(endpoint, bearer, status, date)]
    {
      ghost var e := Response(endpoint, bearer, status, date);
      ghost var was := Kept();
      count := count + 1;
      if endpoint.Tools? && bearer.Some? && date.Some? && 200 <= status < 300 {
        authenticated := Some((count, date.value));
      } else if endpoint.Tools? && bearer.Some? && status == 401 {
        denied := Some((count, date, bearer.value));
      } else if endpoint.TokenPost? && date.Some? && status == 200 {
        if firstToken.None? { firstToken := date; }
        latestToken := date;
      }
      assert Kept() == Recorded(was, e);
      RecordsGrow(history, e);
      history := history + [e];
    }

    method RecordRefusal()
      requires Valid()
      modifies this
      ensures Valid() && history == old(history) + [Refused]
    {
      RecordsGrow(history, Refused);
      history := history + [Refused];
      refusedAt := count + 1;
      count := count + 1;
    }

    method Mark() returns (mark: nat)
      requires Valid()
      ensures mark == |history|
    {
      CountsMean(history);
      mark := count;
    }

    /** The date of the last authenticated answer since the mark, if there was one. */
    method AuthenticatedDateSince(mark: nat) returns (date: Option<Time>)
      requires Valid()
      ensures date.Some? <==> exists i :: mark <= i < |history| && Authenticated(history[i])
      ensures date.Some? ==> exists i :: mark <= i < |history| && Authenticated(history[i]) && history[i].date == date
                                         && forall k :: i < k < |history| ==> !Authenticated(history[k])
    {
      AuthenticatedMeans(history);
      ghost var n := LastOf(history, Authenticated);
      if authenticated.None? || authenticated.value.0 <= mark { return None; }
      assert Authenticated(history[n - 1]);
      return Some(authenticated.value.1);
    }

    /** The date of the last denial, if it came since the mark, was dated, and denied this very token. */
    method DeniedSince(mark: nat, token: Digest) returns (date: Option<Time>)
      requires Valid()
      ensures date.Some? <==> exists i :: mark <= i < |history| && Denied(history[i]) && history[i].date.Some?
                                          && history[i].bearer == Some(token)
                                          && forall k :: i < k < |history| ==> !Denied(history[k])
      ensures date.Some? ==>
              exists i :: mark <= i < |history| && Denied(history[i])
                          && history[i].date == date && history[i].bearer == Some(token)
    {
      DeniedMeans(history);
      ghost var n := LastOf(history, Denied);
      if denied.None? || denied.value.0 <= mark || denied.value.2 != token { return None; }
      assert Denied(history[n - 1]);
      return denied.value.1;
    }

    method ReauthorizationRefusedSince(mark: nat) returns (refused: bool)
      requires Valid()
      ensures refused <==> exists i :: mark <= i < |history| && history[i] == Refused
    {
      CountsMean(history);
      ghost var n := LastOf(history, IsRefusal);
      refused := refusedAt > mark;
      if refused { assert IsRefusal(history[n - 1]) && history[n - 1] == Refused; }
      assert forall i :: n <= i < |history| ==> !IsRefusal(history[i]);
    }

    /** The dates of the first and the last token answer, when the server's clock did not go back between them. */
    method TokenDates() returns (dates: Option<(Time, Time)>)
      requires Valid()
      ensures dates.Some? ==>
              exists i, j :: 0 <= i <= j < |history| && Issued(history[i]) && Issued(history[j])
                             && (forall k :: 0 <= k < i || j < k < |history| ==> !Issued(history[k]))
                             && history[i].date.value <= history[j].date.value
                             && dates == Some((history[i].date.value, history[j].date.value))
      ensures dates.None? ==> (forall e <- history :: !Issued(e))
                              || exists i, j :: FirstAndLastIssued(history, i, j)
                                                && history[j].date.value < history[i].date.value
    {
      TokensMean(history);
      ghost var i, n := FirstOf(history, Issued), LastOf(history, Issued);
      assert firstToken.Some? ==> FirstAndLastIssued(history, i, n - 1);
      if firstToken.None? || latestToken.None? || latestToken.value < firstToken.value { return None; }
      return Some((firstToken.value, latestToken.value));
    }
  }
}
