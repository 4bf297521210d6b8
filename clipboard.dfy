/**
 * The clipboard (flat tree): reading a YouTube URL from it, and the watcher that reports a
 * URL each time the clipboard's content changes to one. The clipboard itself is an input:
 * opening it is `Result<(), string>`, each read a `Result<string, string>` whose error is
 * the platform's message. The half-second pause between polls is left out.
 */
module Clipboard {
  import opened Wrappers
  import opened Text
  import opened Shared
  import opened Utils

  const INIT_FAILED: string := "Failed to initialize clipboard: "
  const READ_FAILED: string := "Failed to read clipboard: "

  /** `ClipboardManager::new`: the platform's error, wrapped. */
  function OpenManager(open: Result<(), string>): (r: Result<(), YtdlError>)
    ensures r.Ok? <==> open.Ok?
    ensures open.Err? ==> r == Err(Other(INIT_FAILED + open.error))
  {
    if open.Err? then Err(Other(INIT_FAILED + open.error)) else Ok(())
  }

  /** `get_text`: the content, or the platform's error wrapped. */
  function GetText(read: Result<string, string>): (r: Result<string, YtdlError>)
    ensures read.Ok? ==> r == Ok(read.value)
    ensures read.Err? ==> r == Err(Other(READ_FAILED + read.error))
  {
    if read.Err? then Err(Other(READ_FAILED + read.error)) else Ok(read.value)
  }

  /** The URL a clipboard text holds: the trimmed text when it passes validation. */
  function UrlIn(text: string): (u: Option<string>)
    ensures u.Some? <==> IsYoutubeUrl(Trim(text))
    ensures u.Some? ==> u.value == Trim(text)
  {
    if ValidateYoutubeUrl(Trim(text)).Ok? then Some(Trim(text)) else None
  }

  /** `get_youtube_url`: a failed read holds no URL. */
  function GetYoutubeUrl(read: Result<string, string>): (u: Option<string>)
    ensures u.Some? <==> read.Ok? && IsYoutubeUrl(Trim(read.value))
    ensures u.Some? ==> u.value == Trim(read.value) && IsYoutubeUrl(u.value)
  {
    if read.Err? then None else UrlIn(read.value)
  }

  /** `has_youtube_url`. */
  predicate HasYoutubeUrl(read: Result<string, string>)
  {
    GetYoutubeUrl(read).Some?
  }

  /** `get_clipboard_url`: a clipboard that cannot be opened holds no URL either. */
  function GetClipboardUrl(open: Result<(), string>, read: Result<string, string>): (u: Option<string>)
    ensures u.Some? <==> open.Ok? && HasYoutubeUrl(read)
    ensures u.Some? ==> u == GetYoutubeUrl(read)
  {
    if open.Err? then None else GetYoutubeUrl(read)
  }

  /** The URL that surrounding whitespace hides is still found, and found the same. */
  lemma {:induction false} WhitespaceAroundUrl(read: Result<string, string>, url: string)
    requires read.Ok? && Trim(read.value) == url && IsYoutubeUrl(url)
    ensures GetYoutubeUrl(read) == Some(url)
  {
  }

  /** The polling state: the last content read, URL or not. */
  class ClipboardWatcher {
    var lastContent: string

    /** `ClipboardWatcher::new` once the clipboard is open: the current content, or "" when it cannot be read. */
    constructor (firstRead: Result<string, string>)
      ensures lastContent == (if firstRead.Ok? then firstRead.value else "")
    {
      lastContent := if firstRead.Ok? then firstRead.value else "";
    }

    /**
     * `check_for_new_url`: a read that fails or finds the content unchanged reports nothing
     * and keeps the state; new content is remembered, untrimmed, and reported when it holds
     * a URL.
     */
    method CheckForNewUrl(read: Result<string, string>) returns (u: Option<string>)
      modifies this
      ensures (lastContent, u) == Poll(old(lastContent), read)
    {
      if read.Err? {
        return None;
      }
      var content := read.value;
      if content != lastContent {
        lastContent := content;
        u := UrlIn(content);
        return u;
      }
      u := None;
    }

    /**
     * `watch_loop`, over the finite run of polls `polls`: every URL reported, in order. The
     * loop itself never ends; this is any prefix of it.
     */
    method WatchLoop(polls: seq<Result<string, string>>) returns (urls: seq<string>)
      modifies this
      ensures (lastContent, urls) == Watch(old(lastContent), polls)
    {
      urls := [];
      var k := 0;
      while k < |polls|
        invariant 0 <= k <= |polls|
        invariant (lastContent, urls) == Watch(old(lastContent), polls[..k])
      {
        assert polls[..k + 1][..k] == polls[..k] && polls[..k + 1][k] == polls[k];
        ghost var step := Poll(lastContent, polls[k]);
        assert Watch(old(lastContent), polls[..k + 1]) == (step.0, if step.1.Some? then urls + [step.1.value] else urls);
        var u := CheckForNewUrl(polls[k]);
        assert lastContent == step.0 && u == step.1;
        if u.Some? {
          urls := urls + [u.value];
        }
        k := k + 1;
      }
      assert polls[..k] == polls;
    }
  }

  /** One poll as a function of the remembered content: the new memory and what is reported. */
  function Poll(last: string, read: Result<string, string>): (r: (string, Option<string>))
    ensures read.Err? || read.value == last ==> r == (last, None)
    ensures read.Ok? && read.value != last ==> r == (read.value, UrlIn(read.value))
  {
    if read.Err? || read.value == last then (last, None) else (read.value, UrlIn(read.value))
  }

  /** A run of polls: the final memory and the URLs reported, in order. */
  function Watch(last: string, polls: seq<Result<string, string>>): (r: (string, seq<string>))
    ensures |r.1| <= |polls|
    ensures forall u :: u in r.1 ==> IsYoutubeUrl(u)
  {
    if polls == [] then (last, [])
    else
      var (mem, urls) := Watch(last, polls[..|polls| - 1]);
      var (mem', u) := Poll(mem, polls[|polls| - 1]);
      (mem', if u.Some? then urls + [u.value] else urls)
  }

  /** The memory after a run of polls is the last content that could be read, or the start when none could. */
  lemma {:induction false} WatchRemembersLastRead(last: string, polls: seq<Result<string, string>>)
    ensures Watch(last, polls).0 == LastRead(last, polls)
  {
    if polls != [] {
      WatchRemembersLastRead(last, polls[..|polls| - 1]);
    }
  }

  /** The content of the last read that succeeded, or `last` when none did. */
  function LastRead(last: string, polls: seq<Result<string, string>>): string
  {
    if polls == [] then last
    else if polls[|polls| - 1].Ok? then polls[|polls| - 1].value
    else LastRead(last, polls[..|polls| - 1])
  }

  /**
   * The same content read again and again is reported at most once, and not at all when it
   * was already there at the start: the watcher fires on a change, not on a URL's presence.
   */
  lemma {:induction false} SameContentOnce(last: string, content: string, n: nat)
    ensures |Watch(last, seq(n, _ => Ok(content))).1| <= 1
    ensures content == last ==> Watch(last, seq(n, _ => Ok(content))).1 == []
    ensures n > 0 ==> Watch(last, seq(n, _ => Ok(content))).0 == content
  {
    if n > 0 {
      var polls := seq(n, _ => Ok(content));
      assert polls[..n - 1] == seq(n - 1, _ => Ok(content));
      SameContentOnce(last, content, n - 1);
      if n - 1 > 0 {
        assert Watch(last, polls[..n - 1]).0 == content;
      }
    }
  }
}
