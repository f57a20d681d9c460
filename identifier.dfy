/**
 * base::Identifier: a String that never holds a space. Both setters copy
 * their argument into a fresh character buffer, writing '_' wherever the
 * argument has ' ', and hand the buffer to the String base class.
 *
 * A C string is modelled by the characters before its terminator; a null
 * pointer by None.
 */
module BaseIdentifier {
  import opened Common

  /** ' ' becomes '_', every other character is kept. */
  function Underscore(c: char): char {
    if c == ' ' then '_' else c
  }

  /** The argument with each space replaced by an underscore. */
  function Underscored(s: string): (r: string)
    ensures |r| == |s|
    ensures forall i :: 0 <= i < |s| ==> r[i] == Underscore(s[i])
  {
    seq(|s|, i requires 0 <= i < |s| => Underscore(s[i]))
  }

  /** The for loop of setStr()/catStr(): fill a new buffer of the same length. */
  method ReplaceSpaces(s: string) returns (r: string)
    ensures r == Underscored(s)
  {
    var newStr := new char[|s|];
    for i := 0 to |s|
      invariant forall k :: 0 <= k < i ==> newStr[k] == Underscore(s[k])
    {
      if s[i] == ' ' {
        newStr[i] := '_';
      } else {
        newStr[i] := s[i];
      }
    }
    r := newStr[..];
  }

  /** The stored text after setStr(s): null and "" both leave the empty string. */
  function SetStrValue(s: Option<string>): string {
    if s.Some? && |s.value| > 0 then Underscored(s.value) else ""
  }

  /** The stored text after catStr(s) on an identifier holding `cur`. */
  function CatStrValue(cur: string, s: Option<string>): string {
    if s.None? then cur
    else if cur == [] then SetStrValue(s)
    else cur + Underscored(s.value)
  }

  /** Normalisation keeps the length and touches only the spaces. */
  lemma UnderscoredOnlySpaces(s: string, i: nat)
    requires i < |s|
    ensures s[i] == ' ' ==> Underscored(s)[i] == '_'
    ensures s[i] != ' ' ==> Underscored(s)[i] == s[i]
  {
  }

  /** Whatever the argument, the normalised text holds no space. */
  lemma UnderscoredHasNoSpace(s: string)
    ensures ' ' !in Underscored(s)
  {
  }

  /** Normalising a text that has no space leaves it as it is. */
  lemma UnderscoredIdempotent(s: string)
    ensures Underscored(Underscored(s)) == Underscored(s)
  {
    var r := Underscored(s);
    UnderscoredHasNoSpace(s);
    assert forall i :: 0 <= i < |r| ==> r[i] != ' ';
    assert Underscored(r) == r;
  }

  /** A text without spaces is a fixed point of normalisation. */
  lemma UnderscoredFixesSpaceFree(s: string)
    requires ' ' !in s
    ensures Underscored(s) == s
  {
    assert forall i :: 0 <= i < |s| ==> s[i] != ' ';
  }

  /** catStr() on an empty identifier is setStr(). */
  lemma CatStrOnEmptyIsSetStr(s: Option<string>)
    requires s.Some?
    ensures CatStrValue("", s) == SetStrValue(s)
  {
  }

  /** The setters never store a space, given a stored text without one. */
  lemma SettersKeepNoSpace(cur: string, s: Option<string>)
    requires ' ' !in cur
    ensures ' ' !in SetStrValue(s)
    ensures ' ' !in CatStrValue(cur, s)
  {
    if s.Some? {
      UnderscoredHasNoSpace(s.value);
    }
  }

  class Identifier {
    /** The text held by the String base class. */
    var str: string

    /** The class comment's promise: an identifier holds no space. */
    ghost predicate Valid()
      reads this
    {
      ' ' !in str
    }

    /** Identifier(): the empty identifier. */
    constructor ()
      ensures Valid() && str == ""
    {
      str := "";
    }

    /** Identifier(const char*): constructed through setStr(). */
    constructor FromString(s: Option<string>)
      ensures Valid() && str == SetStrValue(s)
    {
      var t := "";
      if s.Some? && |s.value| > 0 {
        t := ReplaceSpaces(s.value);
        UnderscoredHasNoSpace(s.value);
      }
      str := t;
    }

    function IsEmpty(): bool
      reads this
    {
      str == []
    }

    /** setStr(): replace the stored text with the normalised argument. */
    method SetStr(s: Option<string>)
      modifies this
      ensures Valid()
      ensures str == SetStrValue(s)
    {
      var len := if s.Some? then |s.value| else 0;
      if len > 0 {
        var newStr := ReplaceSpaces(s.value);
        UnderscoredHasNoSpace(s.value);
        str := newStr;
      } else {
        str := "";
      }
    }

    /** catStr(): append the normalised argument; a null argument changes nothing. */
    method CatStr(s: Option<string>)
      requires Valid()
      modifies this
      ensures Valid()
      ensures str == CatStrValue(old(str), s)
    {
      if s.None? {
        return;
      }
      if IsEmpty() {
        SetStr(s);
        return;
      }
      var newStr := ReplaceSpaces(s.value);
      SettersKeepNoSpace(str, s);
      str := str + newStr;
    }
  }
}
