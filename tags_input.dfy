/** components/tags-input.tsx: an e-mail tag list. Enter on a valid address appends it;
    the close button on a tag removes that value. Every change is reported to the parent
    through `onValueChange`. */
module TagsInput {
  import opened Common
  import opened Validators

  /** `values.filter((value) => value !== v)`. */
  function Without(values: seq<string>, v: string): (r: seq<string>)
    ensures v !in r
    ensures multiset(r) == multiset(values)[v := 0]
    ensures |r| <= |values|
  {
    if values == [] then []
    else
      assert values == [values[0]] + values[1..];
      if values[0] == v then Without(values[1..], v)
      else [values[0]] + Without(values[1..], v)
  }

  /** Removing keeps the survivors in their original order: filtering a concatenation is
      the concatenation of the filtered parts. */
  lemma {:induction false} WithoutAppend(a: seq<string>, b: seq<string>, v: string)
    ensures Without(a + b, v) == Without(a, v) + Without(b, v)
  {
    if a == [] {
      assert a + b == b;
    } else {
      assert (a + b)[0] == a[0] && (a + b)[1..] == a[1..] + b;
      WithoutAppend(a[1..], b, v);
    }
  }

  /** Removing a value that is not there changes nothing. */
  lemma {:induction false} WithoutAbsent(values: seq<string>, v: string)
    requires v !in values
    ensures Without(values, v) == values
  {
    if values != [] {
      WithoutAbsent(values[1..], v);
    }
  }

  /** Adding a value that was not present and then removing it restores the list. */
  lemma AddThenRemove(values: seq<string>, v: string)
    requires v !in values
    ensures Without(values + [v], v) == values
  {
    WithoutAppend(values, [v], v);
    WithoutAbsent(values, v);
  }

  /** The component's state: the tag list, the text in the input element, the form's
      `email` field, and every list handed to `onValueChange`, oldest first. */
  class TagInput {
    var values: seq<string>
    var inputText: string
    var email: string
    var reported: seq<seq<string>>

    constructor ()
      ensures values == [] && inputText == "" && email == "" && reported == []
    {
      values, inputText, email, reported := [], "", "", [];
    }

    /** The input's onChange: the typed text becomes the form's `email` field. */
    method Type(text: string)
      modifies this
      ensures inputText == text && email == text
      ensures values == old(values) && reported == old(reported)
    {
      inputText, email := text, text;
    }

    /** handleEnterKey: on Enter with a valid e-mail, append it (duplicates allowed), clear
        the input element and the form field, and report the new list. Any other key or an
        invalid e-mail changes nothing. */
    method HandleEnterKey(key: string)
      modifies this
      ensures key == "Enter" && EmailError(old(email)).None? ==>
        && values == old(values) + [old(email)]
        && inputText == "" && email == ""
        && reported == old(reported) + [values]
      ensures !(key == "Enter" && EmailError(old(email)).None?) ==>
        values == old(values) && inputText == old(inputText) && email == old(email)
        && reported == old(reported)
    {
      if key == "Enter" {
        if EmailError(email).None? {
          var newValues := values + [email];
          values := newValues;
          inputText := "";
          email := "";
          reported := reported + [newValues];
        }
      }
    }

    /** handleRemoveValue: drop every occurrence of the value, keep the rest in order,
        and report the new list. */
    method HandleRemoveValue(valueToRemove: string)
      modifies this
      ensures values == Without(old(values), valueToRemove)
      ensures reported == old(reported) + [values]
      ensures inputText == old(inputText) && email == old(email)
    {
      var newValues := Without(values, valueToRemove);
      values := newValues;
      reported := reported + [newValues];
    }
  }
}
