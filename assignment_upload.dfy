/** Upload and form checks of the assignment page (static/js/assignments.js):
    `validateAssignmentFile` and `validateAssignmentForm`. Notifications are
    returned as the messages that would be shown. */
module AssignmentUpload {
  import opened Util

  // ---------------------------------------------------------------------
  // File validation
  // ---------------------------------------------------------------------

  /** 10 MB, in bytes. */
  const MaxFileSize: int := 10 * 1024 * 1024
  const AllowedTypes: seq<string> := [".pdf", ".doc", ".docx", ".txt", ".zip"]

  const SizeMessage: string := "File size must be less than 10MB"
  /** 'File type not allowed. Please upload: ' followed by the allowed types
      joined with ', '. */
  const TypeMessage: string := "File type not allowed. Please upload: .pdf, .doc, .docx, .txt, .zip"

  /** The selected file's name and size in bytes. */
  datatype FileInfo = FileInfo(name: string, size: int)

  /** `toLowerCase` on one character, for the letters A to Z. */
  function LowerChar(c: char): char
  {
    if 'A' <= c <= 'Z' then (c as int + 32) as char else c
  }

  const UpperAlphabet: string := "ABCDEFGHIJKLMNOPQRSTUVWXYZ"
  const LowerAlphabet: string := "abcdefghijklmnopqrstuvwxyz"

  /** Lower-casing keeps the length, leaves no upper-case letter, maps the
      k-th upper-case letter to the k-th lower-case one and leaves every
      other character alone. */
  function ToLower(s: string): (r: string)
    ensures |r| == |s|
    ensures forall i :: 0 <= i < |r| ==> r[i] !in UpperAlphabet
    ensures forall i, k :: 0 <= i < |s| && 0 <= k < 26 && s[i] == UpperAlphabet[k] ==> r[i] == LowerAlphabet[k]
    ensures forall i :: 0 <= i < |s| && s[i] !in UpperAlphabet ==> r[i] == s[i]
  {
    seq(|s|, i requires 0 <= i < |s| => LowerChar(s[i]))
  }

  /** `s.split('.').pop()`: the text after the last '.', or all of `s` when
      it has no '.'. */
  function AfterLastDot(s: string): string
  {
    if s == [] then []
    else if s[|s| - 1] == '.' then []
    else AfterLastDot(s[..|s| - 1]) + [s[|s| - 1]]
  }

  /** `'.' + name.split('.').pop().toLowerCase()`. */
  function Extension(name: string): string
  {
    "." + ToLower(AfterLastDot(name))
  }

  /** `AfterLastDot` is the longest suffix without a '.': it contains no
      '.', and it is preceded by a '.' unless it is the whole string. */
  lemma {:induction false} AfterLastDotSpec(s: string)
    ensures var r := AfterLastDot(s);
      && |r| <= |s| && r == s[|s| - |r|..]
      && (forall i :: 0 <= i < |r| ==> r[i] != '.')
      && (|r| < |s| ==> s[|s| - |r| - 1] == '.')
      && (r == s <==> forall i :: 0 <= i < |s| ==> s[i] != '.')
  {
    if s != [] && s[|s| - 1] != '.' {
      var init := s[..|s| - 1];
      AfterLastDotSpec(init);
      var r0 := AfterLastDot(init);
      assert AfterLastDot(s) == r0 + [s[|s| - 1]];
      assert init[|init| - |r0|..] + [s[|s| - 1]] == s[|s| - |r0| - 1..];
      if forall i :: 0 <= i < |s| ==> s[i] != '.' {
        assert forall i :: 0 <= i < |init| ==> init[i] != '.';
      }
    }
  }

  lemma {:induction false} LowerAfterLastDot(s: string)
    ensures AfterLastDot(ToLower(s)) == ToLower(AfterLastDot(s))
  {
    if s != [] {
      var init := s[..|s| - 1];
      assert ToLower(s)[..|s| - 1] == ToLower(init);
      LowerAfterLastDot(init);
      if s[|s| - 1] != '.' {
        assert ToLower(AfterLastDot(init) + [s[|s| - 1]]) == ToLower(AfterLastDot(init)) + [LowerChar(s[|s| - 1])];
      }
    }
  }

  lemma LowerIdempotent(s: string)
    ensures ToLower(ToLower(s)) == ToLower(s)
  {
  }

  /** The extension test ignores letter case: two names that agree once
      lowercased have the same extension. */
  lemma ExtensionIgnoresCase(a: string, b: string)
    requires ToLower(a) == ToLower(b)
    ensures Extension(a) == Extension(b)
  {
    LowerAfterLastDot(a);
    LowerAfterLastDot(b);
    LowerIdempotent(AfterLastDot(a));
    LowerIdempotent(AfterLastDot(b));
  }

  datatype FileVerdict = NoFile | TooLarge | TypeNotAllowed | Accepted

  /** The checks of `validateAssignmentFile`, size first, then type. */
  function CheckFile(file: Option<FileInfo>): FileVerdict
  {
    match file
    case None => NoFile
    case Some(f) =>
      if f.size > MaxFileSize then TooLarge
      else if Extension(f.name) !in AllowedTypes then TypeNotAllowed
      else Accepted
  }

  /** A file is accepted iff its size is at most 10 MB (the limit itself
      passes) and its lower-cased extension is allowed; the verdict is the
      same for names that differ only in letter case; an oversized file is
      refused for its size whatever its name. */
  lemma CheckFileSpec(file: Option<FileInfo>, other: FileInfo)
    ensures CheckFile(file) == Accepted <==>
      file.Some? && file.value.size <= MaxFileSize && Extension(file.value.name) in AllowedTypes
    ensures file.Some? && other.size == file.value.size && ToLower(other.name) == ToLower(file.value.name)
      ==> CheckFile(Some(other)) == CheckFile(file)
    ensures file.Some? && file.value.size > MaxFileSize ==> CheckFile(file) == TooLarge
  {
    if file.Some? && ToLower(other.name) == ToLower(file.value.name) {
      ExtensionIgnoresCase(other.name, file.value.name);
    }
  }

  /** A file with no '.' in its name has the whole (lower-cased) name as its
      extension. */
  lemma DotlessExtension(name: string)
    requires forall i :: 0 <= i < |name| ==> name[i] != '.'
    ensures Extension(name) == "." + ToLower(name)
  {
    AfterLastDotSpec(name);
  }

  /** The file input: its selected files and its value. */
  class FileInput {
    var files: seq<FileInfo>
    var value: string

    constructor (files: seq<FileInfo>, value: string)
      ensures this.files == files && this.value == value
    {
      this.files := files;
      this.value := value;
    }
  }

  function Selected(files: seq<FileInfo>): Option<FileInfo>
  {
    if |files| > 0 then Some(files[0]) else None
  }

  /** `validateAssignmentFile(input)`: true only for an accepted file; any
      rejection shows its message and clears the input. */
  method ValidateAssignmentFile(input: FileInput) returns (ok: bool, notice: Option<string>)
    modifies input
    ensures var v := CheckFile(Selected(old(input.files)));
      && (ok <==> v == Accepted)
      && (v == TooLarge ==> notice == Some(SizeMessage))
      && (v == TypeNotAllowed ==> notice == Some(TypeMessage))
      && (v == TooLarge || v == TypeNotAllowed ==> input.value == "" && input.files == [])
      && (v == Accepted || v == NoFile ==>
            notice == None && input.value == old(input.value) && input.files == old(input.files))
  {
    var file := Selected(input.files);
    if file.Some? {
      var f := file.value;
      if f.size > MaxFileSize {
        notice := Some(SizeMessage);
        input.value, input.files := "", [];
        return false, notice;
      }
      var fileExtension := "." + ToLower(AfterLastDot(f.name));
      if fileExtension !in AllowedTypes {
        notice := Some(TypeMessage);
        input.value, input.files := "", [];
        return false, notice;
      }
      return true, None;
    }
    return false, None;
  }

  // ---------------------------------------------------------------------
  // Form validation
  // ---------------------------------------------------------------------

  /** The characters `String.prototype.trim` removes: white space and line
      terminators. */
  predicate IsJsWhitespace(c: char)
  {
    || ('\t' <= c <= '\r')         // tab, line feed, vertical tab, form feed, carriage return
    || c == ' ' || c == '\U{00A0}' || c == '\U{1680}'
    || ('\U{2000}' <= c <= '\U{200A}')
    || c == '\U{2028}' || c == '\U{2029}' || c == '\U{202F}' || c == '\U{205F}'
    || c == '\U{3000}' || c == '\U{FEFF}'
  }

  function TrimStart(s: string): string
  {
    if s != [] && IsJsWhitespace(s[0]) then TrimStart(s[1..]) else s
  }

  function TrimEnd(s: string): string
  {
    if s != [] && IsJsWhitespace(s[|s| - 1]) then TrimEnd(s[..|s| - 1]) else s
  }

  function Trim(s: string): string
  {
    TrimEnd(TrimStart(s))
  }

  lemma {:induction false} TrimStartEmpty(s: string)
    ensures TrimStart(s) == [] <==> forall i :: 0 <= i < |s| ==> IsJsWhitespace(s[i])
  {
    if s != [] && IsJsWhitespace(s[0]) {
      TrimStartEmpty(s[1..]);
      assert forall i :: 1 <= i < |s| ==> s[i] == s[1..][i - 1];
    }
  }

  lemma {:induction false} TrimEndEmpty(s: string)
    ensures TrimEnd(s) == [] <==> forall i :: 0 <= i < |s| ==> IsJsWhitespace(s[i])
  {
    if s != [] && IsJsWhitespace(s[|s| - 1]) {
      TrimEndEmpty(s[..|s| - 1]);
    }
  }

  lemma {:induction false} TrimStartSuffix(s: string)
    ensures |TrimStart(s)| <= |s| && TrimStart(s) == s[|s| - |TrimStart(s)|..]
    ensures TrimStart(s) != [] ==> !IsJsWhitespace(TrimStart(s)[0])
  {
    if s != [] && IsJsWhitespace(s[0]) {
      TrimStartSuffix(s[1..]);
    }
  }

  /** A field fails the emptiness check (`!value.trim()`) exactly when it
      consists of white space only. */
  lemma TrimEmptyIff(s: string)
    ensures Trim(s) == "" <==> forall i :: 0 <= i < |s| ==> IsJsWhitespace(s[i])
  {
    var t := TrimStart(s);
    TrimStartEmpty(s);
    TrimEndEmpty(t);
    TrimStartSuffix(s);
    if t != [] {
      assert !IsJsWhitespace(t[0]);
      assert t[0] == s[|s| - |t|];
    }
  }

  datatype FormField = Title | Description | Deadline

  const DeadlineMessage: string := "Deadline must be in the future"

  /** Whether a field is marked invalid. `deadlineTime` is
      `new Date(deadline)`, `None` for an invalid date; an invalid date is
      not `<= now`, so it passes. */
  predicate FieldFails(field: FormField, title: string, description: string,
                       deadline: string, deadlineTime: Option<int>, now: int)
  {
    match field
    case Title => Trim(title) == ""
    case Description => Trim(description) == ""
    case Deadline => deadline == "" || (deadlineTime.Some? && deadlineTime.value <= now)
  }

  /** `validateAssignmentForm`: every check runs, each failing field is
      marked, and the form is valid iff no field failed. */
  method ValidateAssignmentForm(title: string, description: string, deadline: string,
                                deadlineTime: Option<int>, now: int)
    returns (isValid: bool, invalid: set<FormField>, notices: seq<string>)
    ensures forall f :: f in invalid <==> FieldFails(f, title, description, deadline, deadlineTime, now)
    ensures isValid <==> invalid == {}
    ensures isValid <==>
      && (exists i :: 0 <= i < |title| && !IsJsWhitespace(title[i]))
      && (exists i :: 0 <= i < |description| && !IsJsWhitespace(description[i]))
      && deadline != ""
      && (deadlineTime.None? || deadlineTime.value > now)
    ensures notices == if deadline != "" && deadlineTime.Some? && deadlineTime.value <= now
                       then [DeadlineMessage] else []
  {
    TrimEmptyIff(title);
    TrimEmptyIff(description);
    isValid := true;
    invalid := {};
    notices := [];

    if Trim(title) == "" {
      invalid := invalid + {Title};
      isValid := false;
    }
    if Trim(description) == "" {
      invalid := invalid + {Description};
      isValid := false;
    }
    if deadline == "" {
      invalid := invalid + {Deadline};
      isValid := false;
    } else {
      if deadlineTime.Some? && deadlineTime.value <= now {
        invalid := invalid + {Deadline};
        notices := notices + [DeadlineMessage];
        isValid := false;
      }
    }
  }
}
