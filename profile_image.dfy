/** np/components/ProfileImage.tsx: the round profile button, which shows the
    avatar image when there is one and the user's initials otherwise. */
module ProfileImage {
  import opened Wrappers
  import opened Text

  /** `s.charAt(0)`: the first character, or nothing for an empty string. A
      `char` here is a whole code point, where JavaScript returns the first
      UTF-16 unit. */
  function CharAt0(s: string): (c: string)
    ensures s == [] ==> c == []
    ensures s != [] ==> c == [s[0]]
  {
    if s == [] then [] else [s[0]]
  }

  /** `names.map(n => n.charAt(0)).slice(0, 2).join("")`: the first
      characters of the first two parts, in order, an empty part giving none. */
  function FirstInitials(names: seq<string>): (r: string)
    requires |names| >= 1
    ensures |r| <= 2
    ensures |r| == (if names[0] != [] then 1 else 0) +
                   (if |names| >= 2 && names[1] != [] then 1 else 0)
    ensures names[0] != [] ==> r[0] == names[0][0]
    ensures |names| >= 2 && names[1] != [] ==> r[|r| - 1] == names[1][0]
  {
    if |names| == 1 then CharAt0(names[0]) else CharAt0(names[0]) + CharAt0(names[1])
  }

  /** `getInitials(fullName)`: the name is trimmed and split at every single
      space, and the initials of the parts are upper-cased. */
  function GetInitials(fullName: string): (r: string)
    ensures |r| <= 2
  {
    ToUpper(FirstInitials(Split(Trim(fullName), ' ')))
  }

  /** A blank name has no initials. */
  lemma BlankNameHasNoInitials(fullName: string)
    requires forall i :: 0 <= i < |fullName| ==> IsJsSpace(fullName[i])
    ensures GetInitials(fullName) == ""
  {
    TrimEmptyIffBlank(fullName);
    assert Split("", ' ') == [""];
  }

  /** A name whose trimmed form is words separated by single spaces gets the
      upper-cased first letters of its first two words (one letter for a
      single word). */
  lemma InitialsOfWords(fullName: string, words: seq<string>)
    requires |words| >= 1 && Trim(fullName) == Join(words, ' ')
    requires forall i :: 0 <= i < |words| ==> words[i] != [] && ' ' !in words[i]
    ensures |words| == 1 ==> GetInitials(fullName) == [UpperChar(words[0][0])]
    ensures |words| >= 2 ==> GetInitials(fullName) == [UpperChar(words[0][0]), UpperChar(words[1][0])]
  {
    SplitJoin(words, ' ');
    var initials := FirstInitials(words);
    if |words| >= 2 {
      assert initials == [words[0][0], words[1][0]];
    } else {
      assert initials == [words[0][0]];
    }
  }

  /** Two spaces in a row make an empty part, whose `charAt(0)` is empty: the
      name "Ann  Lee" gets the single initial "A". */
  lemma DoubleSpaceGivesOneInitial()
    ensures GetInitials("Ann  Lee") == "A"
  {
    var name := "Ann  Lee";
    var words := ["Ann", "", "Lee"];
    assert Join(words, ' ') == name by {
      assert Join(words[2..], ' ') == "Lee";
      assert Join(words[1..], ' ') == "" + " " + "Lee";
    }
    assert Trim(name) == name by {
      assert !IsJsSpace(name[0]) && !IsJsSpace(name[|name| - 1]);
      assert TrimStart(name) == name;
      assert TrimEnd(name) == name;
    }
    forall i | 0 <= i < |words|
      ensures ' ' !in words[i]
    {
    }
    SplitJoin(words, ' ');
    assert FirstInitials(words) == "A";
  }

  /** What the button shows. */
  datatype Face = Image(src: string) | Initials(text: string)

  /** `avatarUrl ? <img src={avatarUrl}> : <div>{getInitials(name)}</div>`: the
      image exactly when the URL is present and non-empty. */
  function FaceOf(avatarUrl: Option<string>, name: string): (f: Face)
    ensures f.Image? <==> avatarUrl.Some? && avatarUrl.value != ""
    ensures f.Image? ==> f.src == avatarUrl.value
    ensures f.Initials? ==> f.text == GetInitials(name)
  {
    if avatarUrl.Some? && avatarUrl.value != "" then Image(avatarUrl.value)
    else Initials(GetInitials(name))
  }

  /** With no avatar, the button of a user whose trimmed name is words
      separated by single spaces shows the upper-cased first letters of the
      first two words, or of the only one. */
  lemma FaceOfWords(avatarUrl: Option<string>, name: string, words: seq<string>)
    requires avatarUrl.None? || avatarUrl.value == ""
    requires |words| >= 1 && Trim(name) == Join(words, ' ')
    requires forall i :: 0 <= i < |words| ==> words[i] != [] && ' ' !in words[i]
    ensures |words| == 1 ==> FaceOf(avatarUrl, name) == Initials([UpperChar(words[0][0])])
    ensures |words| >= 2 ==>
      FaceOf(avatarUrl, name) == Initials([UpperChar(words[0][0]), UpperChar(words[1][0])])
  {
    InitialsOfWords(name, words);
  }
}
