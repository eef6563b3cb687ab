/**
 * `AUTH_HDR_RE = /^([^ ]*?) (.*)$/`, written out identically in
 * passport-hpga/lib/strategy.js and server/session.js: the auth-scheme is the
 * text before the first space (the lazy group cannot pass a space), the rest
 * is everything after it, and `.` makes the match fail when the rest holds a
 * line terminator. The scheme itself may hold one: `[^ ]` matches it.
 */
module AuthHeader {
  import opened Js

  datatype Split = Split(scheme: string, rest: string)

  function SplitAuthHeader(h: string): (r: Option<Split>)
    ensures r.None? <==> ' ' !in h || !NoLineTerminator(h[IndexOf(h, ' ').value + 1..])
    ensures r.Some? ==>
      && ' ' !in r.value.scheme
      && NoLineTerminator(r.value.rest)
      && h == r.value.scheme + " " + r.value.rest
  {
    match IndexOf(h, ' ')
    case None => None
    case Some(i) =>
      if NoLineTerminator(h[i + 1..]) then
        assert h == h[..i] + " " + h[i + 1..];
        Some(Split(h[..i], h[i + 1..]))
      else None
  }

  /** A space-free scheme, a space and a one-line rest are split back apart. */
  lemma SplitRoundTrip(scheme: string, rest: string)
    requires ' ' !in scheme && NoLineTerminator(rest)
    ensures SplitAuthHeader(scheme + " " + rest) == Some(Split(scheme, rest))
  {
    var h := scheme + " " + rest;
    assert h == scheme + (" " + rest);
    IndexOfAppend(scheme, " " + rest, ' ', 0);
    assert h[..|scheme|] == scheme;
    assert h[|scheme| + 1..] == rest;
  }
}
