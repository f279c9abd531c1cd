/** The end-to-end test script (test_pipeline.py): it lists a folder, keeps the
    image files, reads `language_context_...` from each name, builds a prompt
    and sends the image to the model. Listing the folder, reading a file and the
    request to the model are inputs; printing is left out. */
module Harness {
  import opened Wrappers
  import opened Text
  import opened Llama

  /** Line 29: `f.lower().endswith(('.png', '.jpg', '.jpeg', '.gif'))`. */
  predicate IsImageFile(name: string) {
    var n := Lower(name);
    EndsWith(n, ".png") || EndsWith(n, ".jpg") || EndsWith(n, ".jpeg") || EndsWith(n, ".gif")
  }

  /** Line 29: the listing with every non-image name removed, in listing order. */
  function ImageFiles(listing: seq<string>): (files: seq<string>)
    ensures forall f :: f in files <==> f in listing && IsImageFile(f)
    ensures |files| <= |listing|
  {
    if listing == [] then []
    else (if IsImageFile(listing[0]) then [listing[0]] else []) + ImageFiles(listing[1..])
  }

  /** The filter keeps order: filtering a concatenation filters each half. */
  lemma {:induction false} ImageFilesAppend(a: seq<string>, b: seq<string>)
    ensures ImageFiles(a + b) == ImageFiles(a) + ImageFiles(b)
    decreases |a|
  {
    if a != [] {
      var head := if IsImageFile(a[0]) then [a[0]] else [];
      assert (a + b)[0] == a[0] && (a + b)[1..] == a[1..] + b;
      ImageFilesAppend(a[1..], b);
      calc {
        ImageFiles(a + b);
        head + ImageFiles(a[1..] + b);
        head + (ImageFiles(a[1..]) + ImageFiles(b));
        (head + ImageFiles(a[1..])) + ImageFiles(b);
        ImageFiles(a) + ImageFiles(b);
      }
    } else {
      assert a + b == b;
    }
  }

  /** Lines 43-50: the name without its last extension, split on `_`; fewer
      than two parts is a name to skip, otherwise the first two parts are the
      language and the context and any further parts are ignored. */
  function ParseName(file: string): (r: Option<(string, string)>)
    ensures var root := SplitExt(file).0;
      (r.None? <==> '_' !in root) &&
      (r.Some? ==>
        '_' !in r.value.0 && '_' !in r.value.1 && StartsWith(root, r.value.0 + "_" + r.value.1) &&
        var n := |r.value.0| + 1 + |r.value.1|; n == |root| || root[n] == '_')
  {
    var root := SplitExt(file).0;
    var parts := Split(root, '_');
    if |parts| < 2 then None
    else
      SplitFirstTwo(root, '_');
      Some((parts[0], parts[1]))
  }

  // The harness spells the translator prompt without a space after the first
  // sentence; the other two prompts are the server's. The prefixes are written
  // in pieces only so that the verifier can read single characters of them
  // cheaply.
  const TranslatorPrefix := "You are a language translator." + "What is the object in this image? " +
    "Provide a direct translation of the text in the image into "
  const TourGuidePrefix := "You are a tour guide. " + "You are looking at an image and describing it in "
  const SignLanguagePrefix := "Describe this image " + "for a sign language app in "

  /** Lines 53-58: the prompt for a context, chosen by `context.lower()`. */
  function HarnessPrompt(context: string, language: string): (p: string)
    ensures Lower(context) == "translate" ==> p == TranslatorPrefix + language + "."
    ensures Lower(context) == "describe" ==> p == TourGuidePrefix + language + "."
    ensures Lower(context) != "translate" && Lower(context) != "describe" ==> p == SignLanguagePrefix + language + "."
    ensures EndsWith(p, language + ".")
  {
    var prompt :=
      if Lower(context) == "translate" then TranslatorPrefix + language + "."
      else if Lower(context) == "describe" then TourGuidePrefix + language + "."
      else SignLanguagePrefix + language + ".";
    assert prompt[|prompt| - |language + "."|..] == language + ".";
    prompt
  }

  /** What the environment does for the k-th image file: whether reading it
      succeeds, the base64 text of its contents when it does, and what the
      request to the model produces. */
  datatype FileIo = FileIo(readable: bool, encoded: string, reply: Reply)

  /** What happens to one file of the loop. */
  datatype Event =
    | Skipped(file: string)                       // lines 46-48: `continue`
    | Unreadable(file: string, prompt: string)    // reading raised; caught at line 103
    | Requested(file: string, prompt: string, call: Call, reply: Reply)  // lines 68-106

  /** How the run ends: the two early returns, the return for a missing key,
      or the end of the loop. */
  datatype Ending = FolderMissing | NoImages | KeyMissingAt(file: string) | Finished

  datatype Run = Run(events: seq<Event>, ending: Ending)

  /** What the loop body makes of one file when the API key is present: a
      skipped name, a file that could not be read, or a request to `url` with
      `key` carrying the prompt and the file's contents. */
  function EventOf(f: string, x: FileIo, url: string, key: string): Event {
    match ParseName(f)
    case None => Skipped(f)
    case Some((language, context)) =>
      var prompt := HarnessPrompt(context, language);
      if x.readable then Requested(f, prompt, MakeCall(url, key, prompt, x.encoded), x.reply)
      else Unreadable(f, prompt)
  }

  /** A file is skipped exactly when its name has no `_` before the extension;
      it is requested exactly when it also reads; the prompt is the one for the
      context and language its name gives. */
  lemma EventOfFile(f: string, x: FileIo, url: string, key: string)
    ensures var e, root := EventOf(f, x, url, key), SplitExt(f).0;
      e.file == f &&
      (e.Skipped? <==> '_' !in root) &&
      (e.Requested? <==> '_' in root && x.readable) &&
      (e.Requested? ==> e.reply == x.reply && e.call == MakeCall(url, key, e.prompt, x.encoded)) &&
      (!e.Skipped? ==>
        var p := ParseName(f).value; e.prompt == HarnessPrompt(p.1, p.0) && StartsWith(root, p.0 + "_" + p.1))
  {
  }

  /** The event of every image file, in order, were the key present. */
  function Visits(files: seq<string>, io: nat -> FileIo, url: string, key: string): (v: seq<Event>)
    ensures |v| == |files|
  {
    seq(|files|, k requires 0 <= k < |files| => EventOf(files[k], io(k), url, key))
  }

  /** The loop of lines 37-106 from the i-th file on: each file yields its
      event, except that the first file to reach the key check ends the run
      when the key is missing. */
  function RunFrom(visits: seq<Event>, i: nat, keyMissing: bool): (r: Run)
    requires i <= |visits|
    ensures |r.events| <= |visits| - i
    ensures forall k :: 0 <= k < |r.events| ==> r.events[k] == visits[i + k]
    ensures r.ending == Finished || (keyMissing && r.ending.KeyMissingAt?)
    ensures r.ending == Finished ==> |r.events| == |visits| - i
    decreases |visits| - i
  {
    if i == |visits| then Run([], Finished)
    else if visits[i].Requested? && keyMissing then Run([], KeyMissingAt(visits[i].file))
    else
      var rest := RunFrom(visits, i + 1, keyMissing);
      var r := Run([visits[i]] + rest.events, rest.ending);
      assert forall k :: 1 <= k < |r.events| ==> r.events[k] == rest.events[k - 1];
      r
  }

  /** The key put into a request; without a key no request is made, so the
      empty text it stands for then is never used. */
  function KeyText(apiKey: Option<string>): string {
    if apiKey.Some? then apiKey.value else ""
  }

  /** The whole of `test_image_translation`, given the `LLAMA_API_URL` and
      `LLAMA_API_KEY` settings (`None` when unset). */
  function Outcome(folderExists: bool, listing: seq<string>, urlSetting: Option<string>, apiKey: Option<string>,
                   io: nat -> FileIo): (r: Run)
    ensures r.ending == FolderMissing <==> !folderExists
    ensures r.ending == NoImages <==> folderExists && ImageFiles(listing) == []
    ensures r.ending.KeyMissingAt? ==> KeyMissing(apiKey)
    ensures |r.events| <= |ImageFiles(listing)|
    ensures r.ending == Finished ==> |r.events| == |ImageFiles(listing)|
  {
    if !folderExists then Run([], FolderMissing)
    else if ImageFiles(listing) == [] then Run([], NoImages)
    else
      var files := ImageFiles(listing);
      RunFrom(Visits(files, io, ApiUrl(urlSetting), KeyText(apiKey)), 0, KeyMissing(apiKey))
  }

  /** Where the loop body stands when it reaches the API key check: either the
      file has already produced its event, or the prompt is built and the image
      read. */
  datatype Step = Passed(event: Event) | Ready(prompt: string)

  /** Lines 38-62 of the loop body: parse the name, build the prompt, read the
      image (the read's outcome is `x.readable`). */
  method PrepareFile(f: string, x: FileIo, url: string, key: string) returns (step: Step)
    ensures step.Passed? ==> step.event == EventOf(f, x, url, key) && !step.event.Requested?
    ensures step.Ready? ==> EventOf(f, x, url, key) == Requested(f, step.prompt, MakeCall(url, key, step.prompt, x.encoded), x.reply)
  {
    var parsed := ParseName(f);
    if parsed.None? {
      return Passed(Skipped(f));
    }
    var (language, context) := parsed.value;
    var prompt := HarnessPrompt(context, language);
    if !x.readable {
      return Passed(Unreadable(f, prompt));
    }
    return Ready(prompt);
  }

  /** `test_image_translation()`: the two early returns, then the loop. */
  method TestImageTranslation(folderExists: bool, listing: seq<string>, urlSetting: Option<string>,
                              apiKey: Option<string>, io: nat -> FileIo)
    returns (events: seq<Event>, ending: Ending)
    ensures Run(events, ending) == Outcome(folderExists, listing, urlSetting, apiKey, io)
    ensures !folderExists ==> events == [] && ending == FolderMissing
    ensures folderExists && ImageFiles(listing) == [] ==> events == [] && ending == NoImages
  {
    if !folderExists {
      return [], FolderMissing;
    }
    var files := ImageFiles(listing);
    if files == [] {
      return [], NoImages;
    }
    events, ending := VisitFiles(files, ApiUrl(urlSetting), apiKey, io);
  }

  /** Lines 37-106: the `for` loop over the image files, with its `continue`,
      the `return` for a missing key and the per-file `except`. */
  method VisitFiles(files: seq<string>, url: string, apiKey: Option<string>, io: nat -> FileIo)
    returns (events: seq<Event>, ending: Ending)
    ensures Run(events, ending) == RunFrom(Visits(files, io, url, KeyText(apiKey)), 0, KeyMissing(apiKey))
  {
    var key := KeyText(apiKey);
    ghost var visits := Visits(files, io, url, key);
    events := [];
    var i := 0;
    while i < |files|
      invariant 0 <= i <= |files|
      invariant var rest := RunFrom(visits, i, KeyMissing(apiKey));
        RunFrom(visits, 0, KeyMissing(apiKey)) == Run(events + rest.events, rest.ending)
    {
      var f := files[i];
      var step := PrepareFile(f, io(i), url, key);
      var event: Event;
      match step {
        case Passed(e) =>
          event := e;
        case Ready(prompt) =>
          if KeyMissing(apiKey) {
            return events, KeyMissingAt(f);
          }
          event := Requested(f, prompt, MakeCall(url, apiKey.value, prompt, io(i).encoded), io(i).reply);
      }
      assert visits[i] == EventOf(f, io(i), url, key);
      assert event == visits[i];
      ContinueRun(visits, i, KeyMissing(apiKey), events);
      events := events + [event];
      i := i + 1;
    }
    ending := Finished;
  }

  /** One iteration of the loop that does not return moves one event from the
      rest of the run to the events so far. */
  lemma ContinueRun(visits: seq<Event>, i: nat, keyMissing: bool, done: seq<Event>)
    requires i < |visits|
    requires !(visits[i].Requested? && keyMissing)
    ensures var rest, next := RunFrom(visits, i, keyMissing), RunFrom(visits, i + 1, keyMissing);
      done + rest.events == (done + [visits[i]]) + next.events && rest.ending == next.ending
  {
  }

  /** Without an API key no request is ever made. */
  lemma {:induction false} NoRequestWithoutKey(visits: seq<Event>, i: nat)
    requires i <= |visits|
    ensures NoRequests(RunFrom(visits, i, true).events)
    decreases |visits| - i
  {
    if i < |visits| {
      NoRequestWithoutKey(visits, i + 1);
      var r, rest := RunFrom(visits, i, true), RunFrom(visits, i + 1, true);
      if !visits[i].Requested? {
        assert r.events == [visits[i]] + rest.events;
        forall k | 0 <= k < |r.events| ensures !r.events[k].Requested? {
          if k > 0 {
            assert r.events[k] == rest.events[k - 1];
          }
        }
      }
    }
  }

  predicate NoRequests(events: seq<Event>) {
    forall k :: 0 <= k < |events| ==> !events[k].Requested?
  }

  /** Without an API key the run stops, with a `return`, at the first file that
      gets as far as the key check, after one event for each file before it. */
  lemma {:induction false} MissingKeyAborts(visits: seq<Event>, i: nat)
    requires i <= |visits|
    ensures var r := RunFrom(visits, i, true);
      (r.ending == Finished <==> forall k :: i <= k < |visits| ==> !visits[k].Requested?) &&
      (r.ending == Finished ==> r.events == visits[i..]) &&
      (r.ending != Finished ==>
        exists j :: i <= j < |visits| && visits[j].Requested? &&
          (forall k :: i <= k < j ==> !visits[k].Requested?) &&
          r.ending == KeyMissingAt(visits[j].file) && r.events == visits[i..j])
    decreases |visits| - i
  {
    if i < |visits| {
      MissingKeyAborts(visits, i + 1);
      var r := RunFrom(visits, i, true);
      var rest := RunFrom(visits, i + 1, true);
      if visits[i].Requested? {
        assert r.events == [] == visits[i..i];
      } else {
        assert r.events == [visits[i]] + rest.events;
        if rest.ending == Finished {
          assert visits[i..] == [visits[i]] + visits[i + 1..];
        } else {
          var j :| i + 1 <= j < |visits| && visits[j].Requested? &&
            (forall k :: i + 1 <= k < j ==> !visits[k].Requested?) &&
            rest.ending == KeyMissingAt(visits[j].file) && rest.events == visits[i + 1..j];
          assert visits[i..j] == [visits[i]] + visits[i + 1..j];
        }
      }
    }
  }

  /** With an API key every file yields its event, in order, whatever the reads
      and requests do: an exception for one file never stops the run. */
  lemma {:induction false} KeyPresentVisitsAll(visits: seq<Event>, i: nat)
    requires i <= |visits|
    ensures RunFrom(visits, i, false) == Run(visits[i..], Finished)
    decreases |visits| - i
  {
    if i < |visits| {
      KeyPresentVisitsAll(visits, i + 1);
      assert visits[i..] == [visits[i]] + visits[i + 1..];
    }
  }
}
