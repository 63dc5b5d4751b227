/** Newest-first pages of a compiled transcript (pageTranscriptMessages). */
module Paging {
  import opened Prelude
  import opened Events
  import opened Reducer

  const DEFAULT_TRANSCRIPT_PAGE: nat := 40
  const MAX_TRANSCRIPT_PAGE: nat := 200

  function ClampTranscriptPage(limit: Option<Num>): (r: nat)
    ensures 1 <= r <= MAX_TRANSCRIPT_PAGE
    ensures limit.None? || limit.value.NotFinite? ==> r == 40
    ensures limit.Some? && limit.value.Finite? ==>
      var asked := limit.value.value;
      if asked < 1.0 then r == 1 else if asked >= 200.0 then r == 200 else r as real <= asked < r as real + 1.0
  {
    if limit.None? || limit.value.NotFinite? then DEFAULT_TRANSCRIPT_PAGE
    else
      var whole := limit.value.value.Floor;
      var atLeastOne := if whole < 1 then 1 else whole;
      if atLeastOne > MAX_TRANSCRIPT_PAGE then MAX_TRANSCRIPT_PAGE else atLeastOne
  }

  function TrimStart(text: string): string {
    if text != "" && IsSpace(text[0]) then TrimStart(text[1..]) else text
  }

  function TrimEnd(text: string): string {
    if text != "" && IsSpace(text[|text| - 1]) then TrimEnd(text[..|text| - 1]) else text
  }

  function Trim(text: string): string {
    TrimEnd(TrimStart(text))
  }

  function IndexOfId(ms: seq<MessageView>, id: string): (r: Option<nat>)
    ensures r.Some? ==> r.value < |ms| && ms[r.value].id == id && forall k | 0 <= k < r.value :: ms[k].id != id
    ensures r.None? ==> forall k | 0 <= k < |ms| :: ms[k].id != id
  {
    if ms == [] then None
    else if ms[0].id == id then Some(0)
    else match IndexOfId(ms[1..], id) case Some(k) => Some(k + 1) case None => None
  }

  datatype Page = Page(messages: seq<MessageView>, remaining: nat, nextBefore: Option<string>)

  function PageTranscriptMessages(ms: seq<MessageView>, before: Option<string>, limit: Option<Num>): Page {
    var size := ClampTranscriptPage(limit);
    var cursor := Trim(before.GetOr(""));
    var index := if cursor == "" then Some(|ms|) else IndexOfId(ms, cursor);
    if index.None? then Page([], 0, None)
    else
      var end := index.value;
      var start := if end < size then 0 else end - size;
      Page(ms[start..end], start, if start > 0 then Some(ms[start].id) else None)
  }

  // ---- what a page is ----

  /** `t` is the text without the white space around it. */
  predicate TrimmedTo(text: string, t: string, front: nat) {
    && front + |t| <= |text| && text[front..front + |t|] == t
    && (forall k | 0 <= k < front :: IsSpace(text[k]))
    && (forall k | front + |t| <= k < |text| :: IsSpace(text[k]))
    && (t != "" ==> !IsSpace(t[0]) && !IsSpace(t[|t| - 1]))
  }

  lemma {:induction false} TrimStartIs(text: string, front: nat)
    requires front <= |text| && (forall k | 0 <= k < front :: IsSpace(text[k]))
    requires front < |text| ==> !IsSpace(text[front])
    ensures TrimStart(text) == text[front..]
  {
    if front > 0 {
      TrimStartIs(text[1..], front - 1);
      assert text[1..][front - 1..] == text[front..];
    }
  }

  lemma {:induction false} TrimEndIs(text: string, end: nat)
    requires end <= |text| && (forall k | end <= k < |text| :: IsSpace(text[k]))
    requires end > 0 ==> !IsSpace(text[end - 1])
    ensures TrimEnd(text) == text[..end]
  {
    if end < |text| {
      TrimEndIs(text[..|text| - 1], end);
      assert text[..|text| - 1][..end] == text[..end];
    }
  }

  /** Trimming takes exactly that off. */
  lemma TrimIs(text: string, t: string, front: nat)
    requires TrimmedTo(text, t, front)
    ensures Trim(text) == t
  {
    if t == "" {
      TrimStartIs(text, |text|);
    } else {
      TrimStartIs(text, front);
      assert text[front] == t[0];
      var rest := text[front..];
      assert rest[..|t|] == t && rest[|t| - 1] == t[|t| - 1];
      TrimEndIs(rest, |t|);
    }
  }

  lemma {:induction false} TrimStartLeaves(text: string) returns (front: nat)
    ensures front <= |text| && TrimStart(text) == text[front..]
    ensures (forall k | 0 <= k < front :: IsSpace(text[k])) && (front < |text| ==> !IsSpace(text[front]))
  {
    front := 0;
    if text != "" && IsSpace(text[0]) {
      var rest := TrimStartLeaves(text[1..]);
      front := rest + 1;
      assert text[1..][rest..] == text[front..];
      assert forall k | 1 <= k < front :: text[k] == text[1..][k - 1];
    }
  }

  lemma {:induction false} TrimEndLeaves(text: string) returns (end: nat)
    ensures end <= |text| && TrimEnd(text) == text[..end]
    ensures (forall k | end <= k < |text| :: IsSpace(text[k])) && (end > 0 ==> !IsSpace(text[end - 1]))
  {
    end := |text|;
    if text != "" && IsSpace(text[|text| - 1]) {
      end := TrimEndLeaves(text[..|text| - 1]);
      assert text[..|text| - 1][..end] == text[..end];
    }
  }

  /** Every text can be trimmed. */
  lemma TrimsSomewhere(text: string) returns (front: nat)
    ensures TrimmedTo(text, Trim(text), front)
  {
    front := TrimStartLeaves(text);
    var rest := TrimStart(text);
    var end := TrimEndLeaves(rest);
    assert Trim(text) == rest[..end];
    if end == 0 {
      assert rest == "" && |text| == front;
      front := 0;
      assert text[0..0] == "";
    } else {
      assert text[front..front + end] == rest[..end];
      assert forall k | front <= k < |text| :: text[k] == rest[k - front];
    }
  }

  /** The limit asked for, rounded down and held between 1 and 200; 40 when no finite limit is. */
  predicate PageSize(limit: Option<Num>, size: nat) {
    if limit.None? || limit.value.NotFinite? then size == 40
    else
      var asked := limit.value.value;
      if asked < 1.0 then size == 1 else if asked >= 200.0 then size == 200
      else size as real <= asked < size as real + 1.0
  }

  /** A page ends at the message the cursor names, and without a cursor at the end. */
  predicate EndsAt(ms: seq<MessageView>, cursor: string, end: nat) {
    if cursor == "" then end == |ms|
    else end < |ms| && ms[end].id == cursor && forall k | 0 <= k < end :: ms[k].id != cursor
  }

  /** A page is the stretch in front of the cursor, as long as was asked for or as there is; it tells how many messages
      are in front of it and, if there are any, where the next one ends. */
  lemma PageIs(ms: seq<MessageView>, before: Option<string>, limit: Option<Num>, cursor: string, front: nat, size: nat,
               end: nat)
    requires TrimmedTo(before.GetOr(""), cursor, front) && PageSize(limit, size) && EndsAt(ms, cursor, end)
    ensures var page := PageTranscriptMessages(ms, before, limit);
      && |page.messages| == (if end < size then end else size)
      && page.remaining == end - |page.messages|
      && page.messages == ms[page.remaining..end]
      && page.nextBefore == if page.remaining == 0 then None else Some(page.messages[0].id)
  {
    hide TrimmedTo, Trim;
    TrimIs(before.GetOr(""), cursor, front);
    assert ClampTranscriptPage(limit) == size;
    if cursor != "" {
      assert IndexOfId(ms, cursor) == Some(end);
    }
  }

  /** An unknown cursor gives an empty last page. */
  lemma UnknownCursor(ms: seq<MessageView>, before: Option<string>, limit: Option<Num>, cursor: string, front: nat)
    requires TrimmedTo(before.GetOr(""), cursor, front) && cursor != "" && forall k | 0 <= k < |ms| :: ms[k].id != cursor
    ensures PageTranscriptMessages(ms, before, limit) == Page([], 0, None)
  {
    hide TrimmedTo, Trim;
    TrimIs(before.GetOr(""), cursor, front);
  }

  // ---- following the cursor ----

  /** Ids that survive the trip through the `before` parameter. */
  predicate CursorIds(ms: seq<MessageView>) {
    forall k | 0 <= k < |ms| :: ms[k].id != "" && Trim(ms[k].id) == ms[k].id
  }

  predicate DistinctIds(ms: seq<MessageView>) {
    forall i, j | 0 <= i < j < |ms| :: ms[i].id != ms[j].id
  }

  /** Where the page asked for by `before` ends. */
  function PageEnd(ms: seq<MessageView>, before: Option<string>): nat {
    var cursor := Trim(before.GetOr(""));
    if cursor == "" then |ms| else IndexOfId(ms, cursor).GetOr(0)
  }

  /** Scroll up until `nextBefore` is null; the oldest page comes first in the result. */
  function ScrollUp(ms: seq<MessageView>, before: Option<string>, limit: Option<Num>): (pages: seq<Page>)
    requires CursorIds(ms)
    ensures forall k | 0 <= k < |pages| :: |pages[k].messages| <= MAX_TRANSCRIPT_PAGE
    decreases PageEnd(ms, before)
  {
    var page := PageTranscriptMessages(ms, before, limit);
    if page.nextBefore.None? then [page] else ScrollUp(ms, page.nextBefore, limit) + [page]
  }

  function Joined(pages: seq<Page>): seq<MessageView> {
    if pages == [] then [] else Joined(pages[..|pages| - 1]) + pages[|pages| - 1].messages
  }

  lemma JoinedPush(pages: seq<Page>, page: Page)
    ensures Joined(pages + [page]) == Joined(pages) + page.messages
  {
    assert (pages + [page])[..|pages|] == pages;
  }

  /** The next page up ends where this one starts. */
  lemma NextPageEnds(ms: seq<MessageView>, before: Option<string>, limit: Option<Num>)
    requires CursorIds(ms) && DistinctIds(ms)
    ensures var page, end := PageTranscriptMessages(ms, before, limit), PageEnd(ms, before);
      if page.nextBefore.None? then page.messages == ms[..end]
      else var start := PageEnd(ms, page.nextBefore); start < end && ms[..end] == ms[..start] + page.messages
  {
    hide Trim, ClampTranscriptPage;
    var page, end := PageTranscriptMessages(ms, before, limit), PageEnd(ms, before);
    if page.nextBefore.Some? {
      NextCursor(ms, page.remaining);
      var start := page.remaining;
      assert IndexOfId(ms, ms[start].id) == Some(start);
      assert ms[..start] + ms[start..end] == ms[..end];
    }
  }

  lemma NextCursor(ms: seq<MessageView>, k: nat)
    requires CursorIds(ms) && k < |ms|
    ensures ms[k].id != "" && Trim(ms[k].id) == ms[k].id
  {
    hide Trim;
  }

  lemma {:induction false} ScrollUpCovers(ms: seq<MessageView>, before: Option<string>, limit: Option<Num>)
    requires CursorIds(ms) && DistinctIds(ms)
    ensures Joined(ScrollUp(ms, before, limit)) == ms[..PageEnd(ms, before)]
    decreases PageEnd(ms, before)
  {
    hide PageTranscriptMessages, PageEnd, Joined, CursorIds, DistinctIds;
    var page := PageTranscriptMessages(ms, before, limit);
    NextPageEnds(ms, before, limit);
    if page.nextBefore.None? {
      JoinedPush([], page);
      assert [] + [page] == [page];
      NothingJoined();
    } else {
      ScrollUpCovers(ms, page.nextBefore, limit);
      JoinedPush(ScrollUp(ms, page.nextBefore, limit), page);
    }
  }

  lemma NothingJoined()
    ensures Joined([]) == []
  {
  }

  /** The pages, oldest first, are the transcript: nothing twice, nothing missing. */
  lemma PagesCoverTranscript(ms: seq<MessageView>, limit: Option<Num>)
    requires CursorIds(ms) && DistinctIds(ms)
    ensures Joined(ScrollUp(ms, None, limit)) == ms
  {
    ScrollUpCovers(ms, None, limit);
    assert ms[..|ms|] == ms;
  }
}
