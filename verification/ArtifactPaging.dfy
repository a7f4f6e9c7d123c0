/**
Bounded paging through a text file: lines are skipped in bounded chunks and read under a byte
budget. The file is known by its decoded text, after newline translation.
*/
module ArtifactPaging {

  const MAX_BYTES: nat := 256 * 1024
  const SKIP_CHUNK: nat := 8 * 1024
  const MAX_LINES: nat := 500
  const REPLACEMENT: char := '\U{FFFD}'

  // ---------- Lines ----------

  /** The length of the first line, its newline included. */
  function FirstLength(text: string): (n: nat)
    ensures n <= |text| && (text != [] ==> n > 0)
  {
    if text == [] then 0 else if text[0] == '\n' then 1 else 1 + FirstLength(text[1..])
  }

  function Split(text: string): seq<string> {
    if text == [] then [] else [text[..FirstLength(text)]] + Split(text[FirstLength(text)..])
  }

  function Join(lines: seq<string>): string {
    if lines == [] then [] else lines[0] + Join(lines[1..])
  }

  function Drop(lines: seq<string>, n: nat): seq<string> { if n <= |lines| then lines[n..] else [] }

  function Tail(lines: seq<string>): seq<string> { Drop(lines, 1) }

  lemma {:induction false} SplitJoins(text: string)
    ensures Join(Split(text)) == text
  {
    if text != [] {
      SplitJoins(text[FirstLength(text)..]);
      assert Split(text)[1..] == Split(text[FirstLength(text)..]);
    }
  }

  lemma {:induction false} JoinAdds(a: seq<string>, b: seq<string>)
    ensures Join(a + b) == Join(a) + Join(b)
  {
    if a == [] {
      assert a + b == b;
    } else {
      assert (a + b)[1..] == a[1..] + b;
      JoinAdds(a[1..], b);
    }
  }

  /** A line holds at most one newline, at its end, and only the last line may lack it. */
  lemma {:induction false} FirstLineShape(text: string)
    ensures forall k :: 0 <= k < FirstLength(text) - 1 ==> text[k] != '\n'
    ensures 0 < FirstLength(text) < |text| ==> text[FirstLength(text) - 1] == '\n'
  {
    if text != [] && text[0] != '\n' {
      FirstLineShape(text[1..]);
      assert forall k :: 1 <= k < FirstLength(text) - 1 ==> text[k] == text[1..][k - 1];
    }
  }

  /** Taking a part of the first line away leaves the lines after it as they were. */
  lemma {:induction false} PartOfALine(text: string, n: nat)
    requires n < FirstLength(text)
    ensures FirstLength(text[n..]) == FirstLength(text) - n
    ensures Tail(Split(text[n..])) == Tail(Split(text))
    decreases n
  {
    if n == 0 {
      assert text[0..] == text;
    } else {
      assert text[1..][n - 1..] == text[n..];
      PartOfALine(text[1..], n - 1);
      assert text[1..][FirstLength(text[1..])..] == text[FirstLength(text)..];
      assert Tail(Split(text[1..])) == Split(text[FirstLength(text)..]) == Tail(Split(text));
    }
  }

  // ---------- Bytes ----------

  function CharBytes(c: char): (n: nat)
    ensures 1 <= n <= 4
  {
    if (c as int) < 0x80 then 1 else if (c as int) < 0x800 then 2 else if (c as int) < 0x1_0000 then 3 else 4
  }

  function Bytes(s: string): nat {
    if s == [] then 0 else CharBytes(s[0]) + Bytes(s[1..])
  }

  lemma {:induction false} AtLeastOneEach(s: string)
    ensures Bytes(s) >= |s|
  {
    if s != [] {
      AtLeastOneEach(s[1..]);
    }
  }

  lemma {:induction false} BytesAdd(a: string, b: string)
    ensures Bytes(a + b) == Bytes(a) + Bytes(b)
  {
    if a == [] {
      assert a + b == b;
    } else {
      assert (a + b)[1..] == a[1..] + b;
      BytesAdd(a[1..], b);
    }
  }

  /** The first bytes of a line read back as text: a character that was cut shows as one
      replacement character. */
  function CutAt(line: string, bytes: nat): string {
    if line == [] || bytes == 0 then []
    else if CharBytes(line[0]) > bytes then [REPLACEMENT]
    else [line[0]] + CutAt(line[1..], bytes - CharBytes(line[0]))
  }

  /** What lies beyond the cut does not matter to it. */
  lemma {:induction false} CutIgnoresTheRest(line: string, rest: string, bytes: nat)
    requires Bytes(line) > bytes
    ensures CutAt(line + rest, bytes) == CutAt(line, bytes)
  {
    if bytes > 0 {
      assert (line + rest)[1..] == line[1..] + rest;
      if CharBytes(line[0]) <= bytes {
        CutIgnoresTheRest(line[1..], rest, bytes - CharBytes(line[0]));
      }
    }
  }

  // ---------- The simple specification ----------

  datatype Page = Page(offset: nat, lines: nat, content: string, hasMore: bool, truncated: bool)

  function Sum(lines: seq<string>): nat {
    if lines == [] then 0 else Bytes(lines[0]) + Sum(lines[1..])
  }

  /** How many lines are taken whole: at most `limit`, and within the budget. */
  function Taken(lines: seq<string>, limit: nat, budget: nat): (n: nat)
    ensures n <= limit && n <= |lines|
  {
    if limit == 0 || lines == [] || Bytes(lines[0]) > budget then 0
    else 1 + Taken(lines[1..], limit - 1, budget - Bytes(lines[0]))
  }

  function Clamp(n: int, low: nat, high: nat): nat
    requires low <= high
  {
    if n < low then low else if n > high then high else n
  }

  function Max(a: int, b: int): int { if a >= b then a else b }

  function PageFrom(rest: seq<string>, offset: nat, limit: nat): Page {
    var n := Taken(rest, limit, MAX_BYTES);
    var left := MAX_BYTES - Sum(rest[..n]);
    if n == limit || n == |rest| then Page(offset, n, Join(rest[..n]), n < |rest|, false)
    else if left > 0 then Page(offset, n + 1, Join(rest[..n]) + CutAt(rest[n], left), true, true)
    else Page(offset, n, Join(rest[..n]), true, true)
  }

  /** Lines `offset` to `offset + limit` within a byte budget; the line that does not fit is cut. */
  function PageOf(lines: seq<string>, offset: int, limit: int): Page {
    PageFrom(Drop(lines, Max(0, offset)), Max(0, offset), Clamp(limit, 0, MAX_LINES))
  }

  /** What is taken fits the budget, and one line more would not have. */
  lemma {:induction false} TakenFits(lines: seq<string>, limit: nat, budget: nat)
    ensures var n := Taken(lines, limit, budget);
      && Sum(lines[..n]) <= budget
      && (n < limit && n < |lines| ==> Sum(lines[..n]) + Bytes(lines[n]) > budget)
  {
    var n := Taken(lines, limit, budget);
    if n > 0 {
      TakenFits(lines[1..], limit - 1, budget - Bytes(lines[0]));
      assert lines[..n][1..] == lines[1..][..n - 1];
    }
  }

  lemma {:induction false} BytesOfLines(lines: seq<string>)
    ensures Bytes(Join(lines)) == Sum(lines)
  {
    if lines != [] {
      BytesAdd(lines[0], Join(lines[1..]));
      BytesOfLines(lines[1..]);
    }
  }

  lemma OneMoreLine(lines: seq<string>, n: nat)
    requires n < |lines|
    ensures Join(lines[..n + 1]) == Join(lines[..n]) + lines[n]
    ensures Sum(lines[..n + 1]) == Sum(lines[..n]) + Bytes(lines[n])
  {
    assert lines[..n + 1] == lines[..n] + [lines[n]];
    JoinAdds(lines[..n], [lines[n]]);
    BytesOfLines(lines[..n + 1]);
    BytesOfLines(lines[..n]);
    BytesAdd(Join(lines[..n]), lines[n]);
  }

  /** A page never takes more raw bytes than the budget, and it says whether it cut a line: then it
      holds whole lines and the bytes left of a line that does not fit. */
  lemma PageKeepsTheBudget(rest: seq<string>, offset: nat, limit: nat) returns (n: nat)
    ensures n <= limit && n <= |rest| && Bytes(Join(rest[..n])) <= MAX_BYTES
    ensures var page := PageFrom(rest, offset, limit);
      && (page.truncated <==> n < limit && n < |rest|)
      && (!page.truncated ==> page.lines == n && page.content == Join(rest[..n]))
      && (page.truncated ==>
            var left := MAX_BYTES - Bytes(Join(rest[..n]));
            && left < Bytes(rest[n])
            && page.content == Join(rest[..n]) + CutAt(rest[n], left)
            && page.lines == if left > 0 then n + 1 else n)
      && (page.hasMore <==> n < |rest|)
  {
    n := Taken(rest, limit, MAX_BYTES);
    TakenFits(rest, limit, MAX_BYTES);
    BytesOfLines(rest[..n]);
    if n < |rest| {
      assert CutAt(rest[n], 0) == [];
    }
  }

  // ---------- Following the pages ----------

  function Contents(pages: seq<Page>): string {
    if pages == [] then [] else Contents(pages[..|pages| - 1]) + pages[|pages| - 1].content
  }

  ghost predicate IsPage(lines: seq<string>, limit: int, page: Page) {
    page == PageOf(lines, page.offset, limit)
  }

  predicate GoesOn(pages: seq<Page>, i: nat)
    requires 0 < i < |pages|
  {
    pages[i].offset == pages[i - 1].offset + pages[i - 1].lines
  }

  /** Each page starts where the one before it says it ended. */
  ghost predicate Followed(lines: seq<string>, limit: int, pages: seq<Page>) {
    && pages != [] && pages[0].offset == 0
    && (forall i :: 0 <= i < |pages| ==> IsPage(lines, limit, pages[i]))
    && forall i :: 0 < i < |pages| ==> GoesOn(pages, i)
  }

  /** The line that does not fit is cut where nothing shows: no byte was left for it, or all of it
      fits but a part of its last character, which is the replacement character itself. */
  predicate LosesNothing(line: string, left: nat) {
    || left == 0
    || (line != [] && line[|line| - 1] == REPLACEMENT && Bytes(line[..|line| - 1]) < left)
  }

  lemma {:induction false} CutIsNeverLonger(line: string, bytes: nat)
    ensures |CutAt(line, bytes)| <= |line|
  {
    if line != [] && bytes > 0 && CharBytes(line[0]) <= bytes {
      CutIsNeverLonger(line[1..], bytes - CharBytes(line[0]));
    }
  }

  lemma {:induction false} CutShowsNothing(line: string, bytes: nat)
    requires Bytes(line) > bytes > 0
    ensures CutAt(line, bytes) == line <==> LosesNothing(line, bytes)
  {
    var m := |line| - 1;
    assert m == 0 ==> line[1..] == [];
    if CharBytes(line[0]) > bytes {
      if m > 0 {
        assert line[..m][0] == line[0];
      }
    } else {
      var left := bytes - CharBytes(line[0]);
      assert line[..m][1..] == line[1..][..m - 1] && line[..m][0] == line[0];
      assert CutAt(line, bytes) == [line[0]] + CutAt(line[1..], left);
      assert line == [line[0]] + line[1..];
      if left > 0 {
        CutShowsNothing(line[1..], left);
      }
    }
  }

  ghost predicate LineCutUnseen(rest: seq<string>, limit: nat) {
    var n := Taken(rest, limit, MAX_BYTES);
    n < |rest| ==> LosesNothing(rest[n], Max(0, MAX_BYTES - Sum(rest[..n])))
  }

  ghost predicate CutUnseen(lines: seq<string>, limit: int, page: Page) {
    page.truncated ==> LineCutUnseen(Drop(lines, page.offset), Clamp(limit, 0, MAX_LINES))
  }

  /** No page of the chain shows a cut. */
  ghost predicate NoCutShows(lines: seq<string>, limit: int, pages: seq<Page>) {
    forall i :: 0 <= i < |pages| ==> CutUnseen(lines, limit, pages[i])
  }

  /** The lines that a page stands for. */
  ghost function Covered(lines: seq<string>, page: Page): string
    requires page.offset + page.lines <= |lines|
  {
    Join(lines[page.offset..page.offset + page.lines])
  }

  ghost predicate Fits(lines: seq<string>, page: Page) {
    page.offset + page.lines <= |lines| && |page.content| <= |Covered(lines, page)|
  }

  ghost predicate Shows(lines: seq<string>, page: Page) {
    page.offset + page.lines <= |lines| && page.content == Covered(lines, page)
  }

  lemma EqualHalves(a: string, b: string, c: string, d: string)
    requires |a| <= |c| && |b| <= |d|
    ensures a + b == c + d <==> a == c && b == d
  {
    if a + b == c + d {
      assert a == (a + b)[..|a|] && c == (c + d)[..|a|];
      assert b == (a + b)[|a|..] && d == (c + d)[|a|..];
    }
  }

  lemma PageShowsItsLines(rest: seq<string>, offset: nat, limit: nat)
    ensures var page := PageFrom(rest, offset, limit);
      && page.offset == offset && page.lines <= |rest| && (!page.hasMore ==> page.lines == |rest|)
      && |page.content| <= |Join(rest[..page.lines])|
      && (page.content == Join(rest[..page.lines]) <==> (page.truncated ==> LineCutUnseen(rest, limit)))
  {
    var n := Taken(rest, limit, MAX_BYTES);
    var left := MAX_BYTES - Sum(rest[..n]);
    TakenFits(rest, limit, MAX_BYTES);
    if n < limit && n < |rest| && left > 0 {
      CutIsNeverLonger(rest[n], left);
      CutShowsNothing(rest[n], left);
      OneMoreLine(rest, n);
      EqualHalves(Join(rest[..n]), CutAt(rest[n], left), Join(rest[..n]), rest[n]);
    }
  }

  /** A page is never longer than its lines, and it shows exactly them unless a cut shows. */
  lemma PageFits(lines: seq<string>, limit: int, page: Page)
    requires page.offset <= |lines| && IsPage(lines, limit, page)
    ensures Fits(lines, page) && (Shows(lines, page) <==> CutUnseen(lines, limit, page))
    ensures !page.hasMore ==> page.offset + page.lines == |lines|
  {
    var rest := lines[page.offset..];
    PageShowsItsLines(rest, page.offset, Clamp(limit, 0, MAX_LINES));
    assert rest[..page.lines] == lines[page.offset..page.offset + page.lines];
  }

  ghost predicate Chained(lines: seq<string>, pages: seq<Page>) {
    && pages != [] && pages[0].offset == 0
    && (forall i :: 0 <= i < |pages| && pages[i].offset <= |lines| ==> Fits(lines, pages[i]))
    && forall i :: 0 < i < |pages| ==> GoesOn(pages, i)
  }

  ghost predicate AllShow(lines: seq<string>, pages: seq<Page>) {
    forall i :: 0 <= i < |pages| ==> Shows(lines, pages[i])
  }

  lemma AllShowGrows(lines: seq<string>, before: seq<Page>, last: Page)
    ensures AllShow(lines, before + [last]) <==> AllShow(lines, before) && Shows(lines, last)
  {
    var pages := before + [last];
    if AllShow(lines, pages) {
      forall i | 0 <= i < |before|
        ensures Shows(lines, before[i])
      {
        assert Shows(lines, pages[i]);
      }
      assert Shows(lines, pages[|before|]);
    }
  }

  lemma ChainedBefore(lines: seq<string>, before: seq<Page>, last: Page)
    requires Chained(lines, before + [last]) && before != []
    ensures Chained(lines, before)
    ensures last.offset == before[|before| - 1].offset + before[|before| - 1].lines
  {
    var pages := before + [last];
    assert forall i :: 0 <= i < |before| ==> before[i] == pages[i];
    forall i | 0 < i < |before|
      ensures GoesOn(before, i)
    {
      assert GoesOn(pages, i);
    }
    assert GoesOn(pages, |before|);
  }

  lemma PageExtends(lines: seq<string>, shown: string, last: Page)
    requires Fits(lines, last) && |shown| <= |Join(lines[..last.offset])|
    ensures var all := Join(lines[..last.offset + last.lines]);
      && |shown + last.content| <= |all|
      && (shown + last.content == all <==> shown == Join(lines[..last.offset]) && Shows(lines, last))
  {
    var end := last.offset + last.lines;
    assert lines[..end] == lines[..last.offset] + lines[last.offset..end];
    JoinAdds(lines[..last.offset], lines[last.offset..end]);
    EqualHalves(shown, last.content, Join(lines[..last.offset]), Covered(lines, last));
  }

  /** So far the pages show no more than these lines, and exactly them when each shows its own. */
  ghost predicate ShowsUpTo(lines: seq<string>, pages: seq<Page>, end: nat) {
    && end <= |lines| && |Contents(pages)| <= |Join(lines[..end])|
    && (Contents(pages) == Join(lines[..end]) <==> AllShow(lines, pages))
  }

  lemma ShowsOneMore(lines: seq<string>, before: seq<Page>, last: Page)
    requires ShowsUpTo(lines, before, last.offset) && Fits(lines, last)
    ensures ShowsUpTo(lines, before + [last], last.offset + last.lines)
  {
    var pages := before + [last];
    assert pages[..|pages| - 1] == before && Contents(pages) == Contents(before) + last.content;
    PageExtends(lines, Contents(before), last);
    AllShowGrows(lines, before, last);
  }

  /** A chain of pages is never longer than the lines before its end, and it shows exactly them
      when every page shows its own. */
  lemma {:induction false} ChainShowsAPrefix(lines: seq<string>, pages: seq<Page>)
    requires Chained(lines, pages)
    ensures Fits(lines, pages[|pages| - 1])
    ensures ShowsUpTo(lines, pages, pages[|pages| - 1].offset + pages[|pages| - 1].lines)
  {
    var before, last := pages[..|pages| - 1], pages[|pages| - 1];
    assert pages == before + [last];
    if before == [] {
      assert ShowsUpTo(lines, before, 0);
    } else {
      ChainedBefore(lines, before, last);
      ChainShowsAPrefix(lines, before);
    }
    ShowsOneMore(lines, before, last);
  }

  lemma {:induction false} FollowedStaysInside(lines: seq<string>, limit: int, pages: seq<Page>, k: nat)
    requires Followed(lines, limit, pages) && k < |pages|
    ensures pages[k].offset <= |lines|
  {
    if k > 0 {
      assert GoesOn(pages, k);
      FollowedStaysInside(lines, limit, pages, k - 1);
      PageFits(lines, limit, pages[k - 1]);
    }
  }

  lemma FollowedIsChained(lines: seq<string>, limit: int, pages: seq<Page>)
    requires Followed(lines, limit, pages)
    ensures Chained(lines, pages)
  {
    forall i | 0 <= i < |pages|
      ensures Fits(lines, pages[i])
    {
      FollowedStaysInside(lines, limit, pages, i);
      PageFits(lines, limit, pages[i]);
    }
  }

  lemma ShowsMeansUnseen(lines: seq<string>, limit: int, pages: seq<Page>)
    requires Followed(lines, limit, pages)
    ensures AllShow(lines, pages) <==> NoCutShows(lines, limit, pages)
  {
    forall i | 0 <= i < |pages|
      ensures Shows(lines, pages[i]) <==> CutUnseen(lines, limit, pages[i])
    {
      FollowedStaysInside(lines, limit, pages, i);
      PageFits(lines, limit, pages[i]);
    }
  }

  lemma FollowedToTheEnd(lines: seq<string>, limit: int, pages: seq<Page>)
    requires Followed(lines, limit, pages) && !pages[|pages| - 1].hasMore
    ensures var last := pages[|pages| - 1]; last.offset + last.lines == |lines|
  {
    FollowedStaysInside(lines, limit, pages, |pages| - 1);
    PageFits(lines, limit, pages[|pages| - 1]);
  }

  lemma PagesShowTheLines(lines: seq<string>, pages: seq<Page>)
    requires Chained(lines, pages)
    requires pages[|pages| - 1].offset + pages[|pages| - 1].lines == |lines|
    ensures Contents(pages) == Join(lines) <==> AllShow(lines, pages)
    ensures |Contents(pages)| <= |Join(lines)|
  {
    ChainShowsAPrefix(lines, pages);
    assert lines[..|lines|] == lines;
  }

  /** Following the pages until there are no more rebuilds the file exactly when no cut shows. */
  lemma PagesRebuildTheFile(text: string, limit: int, pages: seq<Page>)
    requires Followed(Split(text), limit, pages) && !pages[|pages| - 1].hasMore
    ensures Contents(pages) == text <==> NoCutShows(Split(text), limit, pages)
    ensures |Contents(pages)| <= |text|
  {
    var lines := Split(text);
    FollowedIsChained(lines, limit, pages);
    FollowedToTheEnd(lines, limit, pages);
    PagesShowTheLines(lines, pages);
    ShowsMeansUnseen(lines, limit, pages);
    SplitJoins(text);
  }

  lemma {:induction false} OneLongLine(text: string)
    requires text != [] && forall i :: 0 <= i < |text| ==> text[i] == 'x'
    ensures FirstLength(text) == |text| && Bytes(text) == |text| && Split(text) == [text]
  {
    if |text| > 1 {
      OneLongLine(text[1..]);
    }
    assert text[..|text|] == text && Split(text[|text|..]) == [];
  }

  lemma LongLineIsCut(line: string, offset: nat, limit: nat)
    requires Bytes(line) > MAX_BYTES && limit >= 1
    ensures var page := PageFrom([line], offset, limit); page.truncated && page.lines == 1
    ensures LineCutUnseen([line], limit) <==> LosesNothing(line, MAX_BYTES)
  {
    assert [line][..0] == [];
  }

  /** One line of a byte more than the budget: its last byte is on no page. */
  lemma LongLineIsLost(text: string, limit: int, pages: seq<Page>)
    requires |text| == MAX_BYTES + 1 && (forall i :: 0 <= i < |text| ==> text[i] == 'x') && limit >= 1
    requires pages == [PageOf([text], 0, limit), PageOf([text], 1, limit)]
    ensures Split(text) == [text] && Followed([text], limit, pages) && !pages[1].hasMore
    ensures Contents(pages) != text
  {
    OneLongLine(text);
    LongLineIsCut(text, 0, Clamp(limit, 0, MAX_LINES));
    assert Drop([text], 0) == [text] && Drop([text], 1) == [];
    assert !CutUnseen([text], limit, pages[0]);
    PagesRebuildTheFile(text, limit, pages);
  }

  /** Following makes progress exactly when the limit allows a line at all. */
  lemma FollowingMovesOn(lines: seq<string>, offset: nat, limit: int)
    requires PageOf(lines, offset, limit).hasMore && !PageOf(lines, offset, limit).truncated
    ensures PageOf(lines, offset, limit).lines > 0 <==> limit >= 1
  {
    var n := PageKeepsTheBudget(Drop(lines, offset), offset, Clamp(limit, 0, MAX_LINES));
  }

  // ---------- The reader ----------

  /** So many lines were passed, and maybe a part of the next. */
  ghost predicate At(lines: seq<string>, skipped: nat, rest: string) {
    || Split(rest) == Drop(lines, skipped)
    || (skipped < |lines| && Tail(Split(rest)) == Drop(lines, skipped + 1))
  }

  function ReadLength(rest: string, n: nat): (k: nat)
    ensures k <= |rest|
  {
    if n < FirstLength(rest) then n else FirstLength(rest)
  }

  /** A chunk either ends the line it is in or leaves the reader in it. */
  lemma ChunkStays(lines: seq<string>, skipped: nat, rest: string, n: nat)
    requires At(lines, skipped, rest) && rest != [] && n > 0
    ensures var k := ReadLength(rest, n);
      0 < k && if rest[k - 1] == '\n' then Split(rest[k..]) == Drop(lines, skipped + 1) else At(lines, skipped, rest[k..])
  {
    var k := ReadLength(rest, n);
    var lines' := Split(rest);
    FirstLineShape(rest);
    assert lines'[1..] == Split(rest[FirstLength(rest)..]);
    assert skipped < |lines| || lines' == [];
    assert Tail(lines') == Drop(lines, skipped + 1);
    if k < FirstLength(rest) {
      PartOfALine(rest, k);
    } else if rest[k - 1] != '\n' {
      assert rest[k..] == [];
    }
  }

  /** So many lines were taken whole, and these are left. */
  ghost predicate Reading(lines: seq<string>, limit: nat, left: seq<string>, count: nat, selected: string, used: nat) {
    && count <= |lines| && left == lines[count..] && count <= limit
    && selected == Join(lines[..count]) && used == Sum(lines[..count]) <= MAX_BYTES
    && Taken(lines, limit, MAX_BYTES) == count + Taken(left, limit - count, MAX_BYTES - used)
  }

  lemma ReadingOn(lines: seq<string>, limit: nat, left: seq<string>, count: nat, selected: string, used: nat)
    requires Reading(lines, limit, left, count, selected, used) && count < limit
    requires left != [] && Bytes(left[0]) <= MAX_BYTES - used
    ensures Reading(lines, limit, left[1..], count + 1, selected + left[0], used + Bytes(left[0]))
  {
    OneMoreLine(lines, count);
    assert left[1..] == lines[count + 1..];
  }

  lemma ReadingCuts(lines: seq<string>, limit: nat, left: seq<string>, count: nat, selected: string, used: nat, offset: nat)
    requires Reading(lines, limit, left, count, selected, used) && count < limit
    requires left != [] && Bytes(left[0]) > MAX_BYTES - used
    ensures var remaining := MAX_BYTES - used;
      PageFrom(lines, offset, limit) ==
      Page(offset, count + if remaining > 0 then 1 else 0, selected + CutAt(left[0], remaining), true, true)
  {
    assert Taken(lines, limit, MAX_BYTES) == count && lines[count] == left[0];
    assert CutAt(left[0], 0) == [] && selected + [] == selected;
  }

  lemma ReadingEnds(lines: seq<string>, limit: nat, left: seq<string>, count: nat, selected: string, used: nat, offset: nat)
    requires Reading(lines, limit, left, count, selected, used) && (count == limit || left == [])
    ensures PageFrom(lines, offset, limit) == Page(offset, count, selected, left != [], false)
  {
  }

  /** Reading one character more than there are bytes left never mistakes a part of a line for
      the line: what does not fit shows, and what fits is the whole line. */
  lemma ReadStep(rest: string, remaining: nat)
    requires rest != []
    ensures var k := ReadLength(rest, remaining + 1); var line := rest[..k]; var first := Split(rest)[0];
      && line != [] && (Bytes(line) > remaining <==> Bytes(first) > remaining)
      && (Bytes(line) <= remaining ==> line == first && Split(rest[k..]) == Split(rest)[1..])
      && (Bytes(line) > remaining ==> CutAt(line, remaining) == CutAt(first, remaining))
  {
    var k := ReadLength(rest, remaining + 1);
    var line, more := rest[..k], rest[k..FirstLength(rest)];
    AtLeastOneEach(line);
    assert Split(rest)[0] == line + more;
    BytesAdd(line, more);
    if Bytes(line) > remaining {
      CutIgnoresTheRest(line, more, remaining);
    }
  }

  class Reader {
    var rest: string

    constructor (text: string)
      ensures rest == text
    {
      rest := text;
    }

    /** At most `n` characters, up to the end of the line. */
    method ReadLine(n: nat) returns (line: string)
      modifies this
      ensures line == old(rest)[..ReadLength(old(rest), n)] && rest == old(rest)[ReadLength(old(rest), n)..]
    {
      var k := 0;
      FirstLineShape(rest);
      while k < |rest| && k < n && (k == 0 || rest[k - 1] != '\n')
        invariant k <= FirstLength(rest) && k <= n
      {
        k := k + 1;
      }
      line, rest := rest[..k], rest[k..];
    }

    /** One chunk of the skip; the count goes up when it ends a line. */
    method SkipChunk(ghost lines: seq<string>, before: nat) returns (skipped: nat, ended: bool)
      requires At(lines, before, rest)
      modifies this
      ensures ended <==> old(rest) == []
      ensures ended ==> rest == [] && skipped == before
      ensures !ended ==> |rest| < |old(rest)| && At(lines, skipped, rest)
      ensures skipped == before || (skipped == before + 1 && Split(rest) == Drop(lines, skipped))
    {
      if rest != [] {
        ChunkStays(lines, before, rest, SKIP_CHUNK);
      }
      var chunk := ReadLine(SKIP_CHUNK);
      ended := chunk == [];
      skipped := if !ended && chunk[|chunk| - 1] == '\n' then before + 1 else before;
    }

    /** Consumes exactly the first `offset` lines, in chunks, however long the lines are. */
    method Skip(offset: nat)
      modifies this
      ensures Split(rest) == Drop(Split(old(rest)), offset)
    {
      ghost var lines := Split(rest);
      var skipped: nat := 0;
      var ended := false;
      while skipped < offset && !ended
        invariant At(lines, skipped, rest) && skipped <= offset
        invariant skipped == offset ==> Split(rest) == Drop(lines, skipped)
        invariant ended ==> rest == []
        decreases |rest|, !ended
      {
        skipped, ended := SkipChunk(lines, skipped);
      }
    }

    /** The next line, or enough of it to see that it does not fit. */
    method ReadWithin(remaining: nat) returns (line: string)
      modifies this
      ensures old(rest) == [] ==> line == [] && rest == []
      ensures old(rest) != [] ==>
        var first := Split(old(rest))[0];
        && line != [] && (Bytes(line) > remaining <==> Bytes(first) > remaining)
        && (Bytes(line) <= remaining ==> line == first && Split(rest) == Split(old(rest))[1..])
        && (Bytes(line) > remaining ==> CutAt(line, remaining) == CutAt(first, remaining))
    {
      if rest != [] {
        ReadStep(rest, remaining);
      }
      line := ReadLine(remaining + 1);
    }

    method ReadPage(offset: nat, limit: nat) returns (page: Page)
      modifies this
      ensures page == PageFrom(Split(old(rest)), offset, limit)
    {
      ghost var lines := Split(rest);
      var selected: string, count: nat, used: nat := [], 0, 0;
      while count < limit
        invariant count <= limit && Reading(lines, limit, Split(rest), count, selected, used)
      {
        var remaining := MAX_BYTES - used;
        ghost var left := Split(rest);
        var line := ReadWithin(remaining);
        if line == [] {
          break;
        }
        if Bytes(line) > remaining {
          ReadingCuts(lines, limit, left, count, selected, used, offset);
          var partial := if remaining > 0 then 1 else 0;
          return Page(offset, count + partial, selected + CutAt(line, remaining), true, true);
        }
        ReadingOn(lines, limit, left, count, selected, used);
        selected, used, count := selected + line, used + Bytes(line), count + 1;
      }
      ReadingEnds(lines, limit, Split(rest), count, selected, used, offset);
      page := Page(offset, count, selected, rest != [], false);
    }

    /** The bounded read is the simple specification of the page, for every offset and limit. */
    method ReadArtifactFile(offset: int, limit: int) returns (page: Page)
      modifies this
      ensures page == PageOf(Split(old(rest)), offset, limit)
    {
      var count := Clamp(limit, 0, MAX_LINES);
      Skip(Max(0, offset));
      page := ReadPage(Max(0, offset), count);
    }
  }
}
