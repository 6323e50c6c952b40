/** Form validators: the e-mail rule `/^\S+@\S+$/` of components/tags-input.tsx (the same
    rule guards pages/register.tsx) and the six-character code rule of pages/verify.tsx.
    A validator returns `None` (the form library's `null`) when the value is accepted and
    the error message otherwise. */
module Validators {
  import opened Common

  const InvalidEmail := "Invalid email"
  const BadCodeLength := "Code must be 6 characters"

  /** The language of `/^\S+@\S+$/`: the whole string splits into a non-empty run of
      non-space characters, an `@`, and another non-empty run of non-space characters. */
  ghost predicate MatchesEmailPattern(s: string) {
    exists i :: 0 < i < |s| - 1 && s[i] == '@' && NoWhitespace(s[..i]) && NoWhitespace(s[i + 1..])
  }

  /** The e-mail field's validate rule. */
  function EmailError(val: string): (r: Option<string>)
    ensures r.None? <==> MatchesEmailPattern(val)
    ensures r.Some? ==> r.value == InvalidEmail
  {
    if |val| >= 2 && NoWhitespace(val) && '@' in val[1..|val| - 1] then
      assert MatchesEmailPattern(val) by {
        var j :| 0 <= j < |val| - 2 && val[1..|val| - 1][j] == '@';
        assert val[j + 1] == '@';
        assert NoWhitespace(val[..j + 1]) && NoWhitespace(val[j + 2..]);
      }
      None
    else
      assert !MatchesEmailPattern(val) by {
        if MatchesEmailPattern(val) {
          var i :| 0 < i < |val| - 1 && val[i] == '@' && NoWhitespace(val[..i]) && NoWhitespace(val[i + 1..]);
          assert val[1..|val| - 1][i - 1] == '@';
          forall k | 0 <= k < |val| ensures !IsWhitespace(val[k]) {
            if k < i {
              assert val[k] == val[..i][k];
            } else if k > i {
              assert val[k] == val[i + 1..][k - i - 1];
            }
          }
        }
      }
      Some(InvalidEmail)
  }

  /** An accepted e-mail contains no white space and an `@` that is neither its first nor
      its last character. */
  lemma AcceptedEmailShape(val: string)
    requires EmailError(val).None?
    ensures NoWhitespace(val) && |val| >= 3
    ensures exists i :: 0 < i < |val| - 1 && val[i] == '@'
  {
    var i :| 0 < i < |val| - 1 && val[i] == '@' && NoWhitespace(val[..i]) && NoWhitespace(val[i + 1..]);
    forall k | 0 <= k < |val| ensures !IsWhitespace(val[k]) {
      if k < i {
        assert val[k] == val[..i][k];
      } else if k > i {
        assert val[k] == val[i + 1..][k - i - 1];
      }
    }
  }

  /** The verification code's validate rule: exactly six characters. */
  function CodeError(val: string): (r: Option<string>)
    ensures r.None? <==> |val| == 6
    ensures r.Some? ==> r.value == BadCodeLength
  {
    if |val| == 6 then None else Some(BadCodeLength)
  }
}
