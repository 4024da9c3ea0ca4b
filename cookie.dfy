/**
 * `getCookie` of the task page: looks a name up in `document.cookie`, a
 * string of `name=value` pairs separated by `;` (the Cookie header shape
 * of section 4.2.1 of RFC 6265).
 */
module Cookie {
  import opened Wrappers
  import opened Text

  /** `s.substring(0, n)` for `n >= 0`: JavaScript clamps the end to the length. */
  function Substring0(s: string, n: nat): (r: string)
    ensures |r| == if n <= |s| then n else |s|
  {
    if n <= |s| then s[..n] else s
  }

  /** `cookie.substring(0, name.length + 1) === (name + '=')`. */
  function NamesEntry(entry: string, name: string): (named: bool)
    ensures named ==> |name| < |entry| && entry[|name|] == '='
    ensures named ==> forall k :: 0 <= k < |name| ==> entry[k] == name[k]
  {
    Substring0(entry, |name| + 1) == name + "="
  }

  /**
   * An entry names `name` exactly when it starts with `name` and the next
   * character is `=`: `csrftokenX=1` does not name `csrftoken`, nor does
   * `csrftoken` without an `=`.
   */
  lemma NamesEntryIff(entry: string, name: string)
    ensures NamesEntry(entry, name) <==>
      |name| < |entry| && entry[..|name|] == name && entry[|name|] == '='
  {
    if |name| < |entry| && entry[..|name|] == name && entry[|name|] == '=' {
      assert entry[..|name| + 1] == entry[..|name|] + [entry[|name|]];
    }
    if NamesEntry(entry, name) {
      assert entry[..|name| + 1][..|name|] == (name + "=")[..|name|];
    }
  }

  /**
   * Names cannot contain `=` (they are RFC 6265 tokens), so an entry names
   * at most one of them.
   */
  lemma NamesAtMostOne(entry: string, name1: string, name2: string)
    requires '=' !in name1 && '=' !in name2
    requires NamesEntry(entry, name1) && NamesEntry(entry, name2)
    ensures name1 == name2
  {
    NamesEntryIff(entry, name1);
    NamesEntryIff(entry, name2);
  }

  /** The entries of a cookie string: its `;`-separated pieces, untrimmed. */
  function Entries(documentCookie: string): (cookies: seq<string>)
    ensures |cookies| >= 1
  {
    Split(documentCookie, ';')
  }

  /** Entry `i` of `cookies` is the first whose trimmed text names `name`. */
  predicate FirstNamingAt(cookies: seq<string>, name: string, i: int) {
    && 0 <= i < |cookies|
    && NamesEntry(Trim(cookies[i]), name)
    && forall j :: 0 <= j < i ==> !NamesEntry(Trim(cookies[j]), name)
  }

  /** No entry of `cookies`, once trimmed, names `name`. */
  predicate NoneNames(cookies: seq<string>, name: string) {
    forall j :: 0 <= j < |cookies| ==> !NamesEntry(Trim(cookies[j]), name)
  }

  /**
   * `getCookie(name)` over the string `documentCookie`. The value found is
   * passed through `decode`, which stands for `decodeURIComponent`. The
   * result is `null` when the string is empty or no entry names `name`;
   * otherwise it is the decoded text after `name=` in the first entry
   * that names it.
   */
  method GetCookie(documentCookie: string, name: string, decode: string -> string)
    returns (cookieValue: Option<string>)
    ensures cookieValue.None? <==> documentCookie == "" || NoneNames(Entries(documentCookie), name)
    ensures cookieValue.Some? ==>
      exists i :: FirstNamingAt(Entries(documentCookie), name, i) &&
        cookieValue.value == decode(Trim(Entries(documentCookie)[i])[|name| + 1..])
  {
    cookieValue := None;
    if documentCookie != "" {
      var cookies := Entries(documentCookie);
      var i := 0;
      while i < |cookies|
        invariant 0 <= i <= |cookies|
        invariant forall j :: 0 <= j < i ==> !NamesEntry(Trim(cookies[j]), name)
        invariant cookieValue.None?
      {
        var cookie := Trim(cookies[i]);
        if NamesEntry(cookie, name) {
          cookieValue := Some(decode(cookie[|name| + 1..]));
          assert FirstNamingAt(cookies, name, i);
          break;
        }
        i := i + 1;
      }
    }
  }
}
