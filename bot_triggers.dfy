/**
 * The URL watcher trigger: a message that is not addressed to the bot and
 * starts with an http or https URL makes the bot respond, when the watcher is on.
 */
module BotTriggers {
  import opened Text

  /** The characters of the RE2 class `\s`: tab, newline, form feed, carriage return, space. */
  predicate ReSpace(c: char) {
    c == '\t' || c == '\n' || c as int == 0x0C || c == '\r' || c == ' '
  }

  /** Position just after a leading `http://` or `https://`, if the message starts with one. */
  function SchemeEnd(message: string): (r: int)
    ensures r == 7 ==> StartsWith(message, "http://")
    ensures r == 8 ==> StartsWith(message, "https://")
    ensures r == -1 <==> !StartsWith(message, "http://") && !StartsWith(message, "https://")
    ensures r == -1 || r == 7 || r == 8
  {
    if StartsWith(message, "http://") then 7
    else if StartsWith(message, "https://") then 8
    else -1
  }

  /** The pattern `^https?://[^\s]+`: a scheme at the very start and one non-space character after it. */
  predicate UrlPatternMatches(message: string) {
    var e := SchemeEnd(message);
    e != -1 && e < |message| && !ReSpace(message[e])
  }

  /** The declarative reading of the pattern. */
  ghost predicate StartsWithUrl(message: string) {
    exists scheme :: (scheme == "http://" || scheme == "https://")
      && StartsWith(message, scheme) && |scheme| < |message| && !ReSpace(message[|scheme|])
  }

  lemma UrlPatternMeaning(message: string)
    ensures UrlPatternMatches(message) <==> StartsWithUrl(message)
  {
    if StartsWith(message, "https://") {
      assert !StartsWith(message, "http://") by {
        assert message[4] == 's';
      }
    }
  }

  /**
   * True when the URL watcher is on, the message does not address the bot and
   * it starts with an http(s) URL.
   */
  function CheckURLTrigger(urlWatcher: bool, isAddressed: bool, message: string): (r: bool)
    ensures !urlWatcher ==> !r
    ensures isAddressed ==> !r
    ensures r <==> urlWatcher && !isAddressed && StartsWithUrl(message)
  {
    UrlPatternMeaning(message);
    if !urlWatcher then false
    else if isAddressed then false
    else UrlPatternMatches(message)
  }

  /**
   * A URL that does not start the message never triggers: whatever follows a
   * leading text of eight or more characters that is not itself a scheme
   * start, the message is not matched.
   */
  lemma MidMessageUrlDoesNotTrigger(w: bool, prefix: string, url: string)
    requires |prefix| >= 8 && !StartsWith(prefix, "http://") && !StartsWith(prefix, "https://")
    ensures !CheckURLTrigger(w, false, prefix + url)
  {
    var m := prefix + url;
    assert m[..7] == prefix[..7];
    assert m[..8] == prefix[..8];
  }

  /** Another scheme never triggers. */
  lemma FtpDoesNotTrigger(w: bool, rest: string)
    ensures !CheckURLTrigger(w, false, "ftp://" + rest)
  {
    var m := "ftp://" + rest;
    assert m[0] == 'f';
    assert !StartsWith(m, "http");
  }

  /** A bare scheme, or a scheme followed by white space, never triggers. */
  lemma EmptyUrlDoesNotTrigger(w: bool, rest: string)
    ensures !CheckURLTrigger(w, false, "http://")
    ensures !CheckURLTrigger(w, false, "https:// " + rest)
  {
    var m := "https:// " + rest;
    assert StartsWith(m, "https://") && m[4] == 's' && m[8] == ' ';
    assert StartsWith(m[5..], "://");
  }
}
