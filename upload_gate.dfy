/**
 * The upload page: the keyword test that decides whether extracted text
 * looks like a resume, the page-by-page text extraction, and the chain of
 * checks that runs before the parsed data is handed to the builder.
 */
module UploadGate {
  import opened Wrappers
  import opened Json
  import opened Text

  /** The nine words whose presence marks a resume, in the page's order. */
  const Keywords: seq<string> := [
    "objective", "experience", "education", "projects", "skills",
    "certifications", "summary", "achievements", "languages"
  ]

  /** `ks.filter(kw => lowered.includes(kw))`, written as a filter from the end. */
  function Found(lowered: string, ks: seq<string>): (r: seq<string>)
    ensures |r| <= |ks|
    ensures forall i :: 0 <= i < |r| ==> Contains(lowered, r[i])
    decreases |ks|
  {
    if |ks| == 0 then []
    else
      var last := ks[|ks| - 1];
      Found(lowered, ks[..|ks| - 1]) + (if Contains(lowered, last) then [last] else [])
  }

  /** `isResumeText`: at least three of the keywords occur in the lower-cased text. */
  predicate IsResumeText(text: string) {
    |Found(Lower(text), Keywords)| >= 3
  }

  /** The indices of the keywords among the first `n` of `ks` that occur in `lowered`. */
  function FoundIndices(lowered: string, ks: seq<string>, n: nat): set<nat>
    requires n <= |ks|
  {
    set i: nat | i < n && Contains(lowered, ks[i])
  }

  /** The text of one page: its items joined with single spaces. */
  function PageText(items: seq<string>): string {
    Join(items, " ")
  }

  /** The extracted text: each page's text followed by a newline, pages in order. */
  function PagesText(pages: seq<seq<string>>): (t: string)
    ensures |pages| == 0 ==> t == ""
    decreases |pages|
  {
    if |pages| == 0 then ""
    else PagesText(pages[..|pages| - 1]) + (PageText(pages[|pages| - 1]) + "\n")
  }

  /**
   * The page-concatenation loop of `extractTextFromPDF`, given the item
   * strings of every page.
   */
  method ExtractText(pages: seq<seq<string>>) returns (fullText: string)
    ensures fullText == PagesText(pages)
  {
    fullText := "";
    var i := 0;
    while i < |pages|
      invariant 0 <= i <= |pages|
      invariant fullText == PagesText(pages[..i])
    {
      var pageText := Join(pages[i], " ");
      assert pages[..i + 1][..i] == pages[..i];
      fullText := fullText + (pageText + "\n");
      i := i + 1;
    }
    assert pages[..i] == pages;
  }

  /** What the server gives back: no answer at all, or a status and a body that may not be JSON. */
  datatype Reply = NetworkFailure | Reply(ok: bool, body: Option<Json>)

  /** How `handleProceed` ends. */
  datatype Outcome =
    | Idle              // no file selected
    | EmptyFile         // the extracted text is blank
    | NotAResume        // the keyword test failed
    | ServerError       // the server answered with an error status
    | InvalidResponse   // the body is not an object
    | Failed            // extraction, the request or JSON decoding threw
    | Navigate(parsedData: Json)

  /** The body is an object or an array: `data && typeof data === "object"`. */
  predicate IsObject(v: Json) {
    v.JObj? || v.JArr?
  }

  /** The part of `handleProceed` after the request has been sent. */
  function ResponseOutcome(reply: Reply): (o: Outcome)
    ensures o.Navigate? <==> reply.Reply? && reply.ok && reply.body.Some? && IsObject(reply.body.value)
    ensures o.Navigate? ==> reply.body == Some(o.parsedData)
    ensures reply.Reply? && !reply.ok ==> o == ServerError
    ensures reply.Reply? && reply.ok && reply.body.Some? && !IsObject(reply.body.value) ==> o == InvalidResponse
    ensures reply.NetworkFailure? || (reply.ok && reply.body.None?) ==> o == Failed
  {
    match reply
    case NetworkFailure => Failed
    case Reply(ok, body) =>
      if !ok then ServerError
      else match body
        case None => Failed
        case Some(data) => if IsObject(data) then Navigate(data) else InvalidResponse
  }

  /**
   * `handleProceed`: `pages` is what extraction produced (`None` when it
   * threw) and `reply` what the server sends back. `requested` says
   * whether the request was issued.
   */
  method HandleProceed(fileSelected: bool, pages: Option<seq<seq<string>>>, reply: Reply)
    returns (outcome: Outcome, requested: bool)
    ensures !fileSelected ==> outcome == Idle && !requested
    ensures fileSelected && pages.None? ==> outcome == Failed && !requested
    ensures fileSelected && pages.Some? && AllSpace(PagesText(pages.value)) ==> outcome == EmptyFile
    ensures fileSelected && pages.Some? && !AllSpace(PagesText(pages.value)) && !IsResumeText(PagesText(pages.value)) ==>
      outcome == NotAResume
    ensures requested <==>
      fileSelected && pages.Some? && !AllSpace(PagesText(pages.value)) && IsResumeText(PagesText(pages.value))
    ensures requested ==> outcome == ResponseOutcome(reply)
    ensures outcome.Navigate? ==> requested && reply.Reply? && reply.ok && reply.body == Some(outcome.parsedData)
  {
    requested := false;
    if !fileSelected {
      return Idle, requested;
    }
    if pages.None? {
      return Failed, requested;
    }
    var text := ExtractText(pages.value);
    if |Trim(text)| == 0 {
      return EmptyFile, requested;
    }
    if !IsResumeText(text) {
      return NotAResume, requested;
    }
    requested := true;
    if reply.NetworkFailure? {
      return Failed, requested;
    }
    if !reply.ok {
      return ServerError, requested;
    }
    if reply.body.None? {
      return Failed, requested;
    }
    var data := reply.body.value;
    if !IsObject(data) {
      return InvalidResponse, requested;
    }
    outcome := Navigate(data);
  }
}

module UploadGateProperties {
  import opened Text
  import opened UploadGate

  lemma {:induction false} LowerIdempotent(s: string)
    ensures Lower(Lower(s)) == Lower(s)
  {
    assert forall i :: 0 <= i < |s| ==> LowerChar(LowerChar(s[i])) == LowerChar(s[i]);
  }

  /** The test ignores case: a text and its lower-cased form are judged alike. */
  lemma CaseInsensitive(text: string)
    ensures IsResumeText(Lower(text)) == IsResumeText(text)
  {
    LowerIdempotent(text);
  }

  /** Counting along the filter: over the first `n` keywords, it keeps exactly the occurring ones. */
  lemma {:induction false} FoundCount(lowered: string, ks: seq<string>, n: nat)
    requires n <= |ks|
    ensures |Found(lowered, ks[..n])| == |FoundIndices(lowered, ks, n)|
  {
    if n > 0 {
      var m := n - 1;
      FoundCount(lowered, ks, m);
      assert ks[..n][..m] == ks[..m];
      assert ks[..n][m] == ks[m];
      var a := FoundIndices(lowered, ks, m);
      var b := FoundIndices(lowered, ks, n);
      if Contains(lowered, ks[m]) {
        assert b == a + {m};
        assert |Found(lowered, ks[..n])| == |Found(lowered, ks[..m])| + 1;
      } else {
        assert b == a;
        assert |Found(lowered, ks[..n])| == |Found(lowered, ks[..m])|;
      }
    }
  }

  /** `isResumeText` holds exactly when the set of keywords occurring in the lower-cased text has at least three members. */
  lemma ThreeOfNine(text: string)
    ensures IsResumeText(text) <==> |FoundIndices(Lower(text), Keywords, 9)| >= 3
  {
    FoundCount(Lower(text), Keywords, 9);
    assert Keywords[..9] == Keywords;
  }

  lemma {:induction false} ContainsTransitive(a: string, b: string, c: string)
    requires Contains(a, b) && Contains(b, c)
    ensures Contains(a, c)
  {
    var i :| 0 <= i <= |a| && b <= a[i..];
    var j :| 0 <= j <= |b| && c <= b[j..];
    assert c <= a[i + j..];
  }

  lemma {:induction false} LowerContains(a: string, b: string)
    requires Contains(a, b)
    ensures Contains(Lower(a), Lower(b))
  {
    var i :| 0 <= i <= |a| && b <= a[i..];
    assert Lower(b) <= Lower(a)[i..];
  }

  /** Whatever occurs in `x` occurs in `y`: the filter over `y` keeps at least as many keywords. */
  lemma {:induction false} FoundMonotone(x: string, y: string, ks: seq<string>)
    requires forall k :: Contains(x, k) ==> Contains(y, k)
    ensures |Found(x, ks)| <= |Found(y, ks)|
    decreases |ks|
  {
    if |ks| > 0 {
      FoundMonotone(x, y, ks[..|ks| - 1]);
    }
  }

  /**
   * Matching is by substring, so a text containing a resume-like text is
   * resume-like itself.
   */
  lemma Monotone(text: string, larger: string)
    requires Contains(larger, text) && IsResumeText(text)
    ensures IsResumeText(larger)
  {
    LowerContains(larger, text);
    forall k | Contains(Lower(text), k)
      ensures Contains(Lower(larger), k)
    {
      ContainsTransitive(Lower(larger), Lower(text), k);
    }
    FoundMonotone(Lower(text), Lower(larger), Keywords);
  }

  /** Extraction is a homomorphism: the text of two runs of pages is the concatenation of their texts. */
  lemma {:induction false} PagesTextAppend(a: seq<seq<string>>, b: seq<seq<string>>)
    ensures PagesText(a + b) == PagesText(a) + PagesText(b)
    decreases |b|
  {
    if |b| == 0 {
      assert a + b == a;
    } else {
      var n := |b| - 1;
      assert (a + b)[..|a + b| - 1] == a + b[..n];
      PagesTextAppend(a, b[..n]);
    }
  }

  lemma {:induction false} PagesTextSplit(pages: seq<seq<string>>, k: nat)
    requires k <= |pages|
    ensures PagesText(pages) == PagesText(pages[..k]) + PagesText(pages[k..])
    decreases |pages|
  {
    if k == |pages| {
      assert pages[..k] == pages;
      assert pages[k..] == [];
    } else {
      var n := |pages| - 1;
      var front := pages[..n];
      PagesTextSplit(front, k);
      assert front[..k] == pages[..k];
      assert front[k..] == pages[k..][..|pages[k..]| - 1];
      assert pages[k..][|pages[k..]| - 1] == pages[n];
      AppendAssociates(PagesText(pages[..k]), PagesText(front[k..]), PageText(pages[n]) + "\n");
    }
  }

  /** The extracted text split around one page. */
  lemma PagesTextAt(pages: seq<seq<string>>, i: nat)
    requires i < |pages|
    ensures PagesText(pages) == PagesText(pages[..i]) + (PageText(pages[i]) + "\n") + PagesText(pages[i + 1..])
  {
    PagesTextSplit(pages, i + 1);
    assert pages[..i + 1][..i] == pages[..i];
  }

  /** Every page's text appears in the extracted text. */
  lemma PageInText(pages: seq<seq<string>>, i: nat)
    requires i < |pages|
    ensures Contains(PagesText(pages), PageText(pages[i]))
  {
    PagesTextAt(pages, i);
    ContainsAfter(PagesText(pages[..i]), PageText(pages[i]), "\n", PagesText(pages[i + 1..]));
  }

  lemma ContainsAfter(head: string, k: string, mid: string, tail: string)
    ensures Contains(head + (k + mid) + tail, k)
  {
    assert (head + (k + mid) + tail)[|head|..] == k + (mid + tail);
  }

  /** A single resume-like page makes the whole document pass the test. */
  lemma ResumePageSuffices(pages: seq<seq<string>>, i: nat)
    requires i < |pages| && IsResumeText(PageText(pages[i]))
    ensures IsResumeText(PagesText(pages))
  {
    PageInText(pages, i);
    Monotone(PageText(pages[i]), PagesText(pages));
  }
}
