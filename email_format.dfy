/**
 * The address check both mail endpoints apply, the regular expression
 * `^[^\s@]+@[^\s@]+\.[^\s@]+$`: stated as the shape it accepts, and as a
 * scan over the address, with the two shown to agree.
 */
module EmailFormat {
  import opened Wrappers
  import Js
  import Text

  /** A character the expression's classes `[^\s@]` accept. */
  predicate Plain(c: char) {
    !Js.IsWhiteSpace(c) && c != '@'
  }

  /**
   * The language of the expression: a single `@` after a non-empty local
   * part, and after it a dot with at least one character on either side;
   * every other character is plain.
   */
  predicate EmailShaped(s: string) {
    exists at, dot :: 0 < at && at + 1 < dot && dot + 1 < |s| && s[at] == '@' && s[dot] == '.'
                      && forall k :: 0 <= k < |s| && k != at ==> Plain(s[k])
  }

  predicate AllPlain(s: string) {
    forall k :: 0 <= k < |s| ==> Plain(s[k])
  }

  /** `emailRegex.test(to)`: split at the first `@`, then check both sides. */
  function MatchesEmail(s: string): bool {
    match Text.IndexOf(s, '@')
    case None => false
    case Some(at) =>
      var domain := s[at + 1..];
      at > 0 && AllPlain(s[..at]) && AllPlain(domain)
      && |domain| >= 3 && '.' in domain[1..|domain| - 1]
  }

  /** The scan accepts exactly the addresses of the expression's shape. */
  lemma MatchesEmailIffShaped(s: string)
    ensures MatchesEmail(s) <==> EmailShaped(s)
  {
    if MatchesEmail(s) {
      var at := Text.IndexOf(s, '@').value;
      var domain := s[at + 1..];
      var inner := domain[1..|domain| - 1];
      var d :| 0 <= d < |inner| && inner[d] == '.';
      var dot := at + 2 + d;
      assert s[dot] == '.';
      forall k | 0 <= k < |s| && k != at
        ensures Plain(s[k])
      {
        if k < at {
          assert s[k] == s[..at][k];
        } else {
          assert s[k] == domain[k - at - 1];
        }
      }
    }
    if EmailShaped(s) {
      var at, dot :| 0 < at && at + 1 < dot && dot + 1 < |s| && s[at] == '@' && s[dot] == '.'
                     && forall k :: 0 <= k < |s| && k != at ==> Plain(s[k]);
      assert '@' in s[..at + 1];
      var first := Text.IndexOf(s, '@').value;
      assert first == at;
      var domain := s[at + 1..];
      assert domain[1..|domain| - 1][dot - at - 2] == '.';
      assert AllPlain(s[..at]) by {
        forall k | 0 <= k < at
          ensures Plain(s[..at][k])
        {
          assert s[..at][k] == s[k];
        }
      }
      assert AllPlain(domain) by {
        forall k | 0 <= k < |domain|
          ensures Plain(domain[k])
        {
          assert domain[k] == s[at + 1 + k];
        }
      }
    }
  }

  /** A short address is accepted: one `@`, and a dot inside the domain. */
  lemma AcceptsAddress()
    ensures MatchesEmail("a@b.co")
  {
    var s := "a@b.co";
    MatchesEmailIffShaped(s);
    assert s[1] == '@' && s[3] == '.';
    assert forall k :: 0 <= k < |s| && k != 1 ==> Plain(s[k]);
  }

  /** No dot in the domain, an empty local part, a second `@` or a space: refused. */
  lemma RefusesMalformed()
    ensures !MatchesEmail("a@bc")
    ensures !MatchesEmail("@b.co")
    ensures !MatchesEmail("a@b@c.co")
    ensures !MatchesEmail("a b@c.co")
  {
    MatchesEmailIffShaped("a@bc");
    MatchesEmailIffShaped("@b.co");
    MatchesEmailIffShaped("a@b@c.co");
    MatchesEmailIffShaped("a b@c.co");
    assert !Plain("a@b@c.co"[1]) && !Plain("a@b@c.co"[3]);
    assert !Plain("a b@c.co"[1]);
  }
}
