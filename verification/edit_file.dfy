/**
 * The edit_file tool (internal/tool/edit_file.go): replace the one occurrence of a string in
 * a file. Decoding the JSON arguments and the file system are parameters: `params` is what
 * decoding gave, `read` what reading a path gives, and `writeErr` how the write went.
 */
module EditFile {
  import opened Wrappers
  import opened Text

  datatype EditParams = EditParams(filePath: string, oldString: string, newString: string)

  /** What os.ReadFile gave: the contents, a file that does not exist, or another error. */
  datatype ReadOutcome = Contents(data: string) | NotExist | ReadFailed(msg: string)

  /** The result text and, when Execute got that far, the contents it handed to os.WriteFile. */
  datatype Outcome = Outcome(result: string, written: Option<string>)

  /** Preview: the path, then the old and the new string under their own headings. */
  function Preview(params: Result<EditParams>): (s: string) {
    if params.Err? then "Edit file (invalid params)"
    else
      var p := params.value;
      "Edit " + p.filePath + "\n--- old\n" + p.oldString + "\n+++ new\n" + p.newString
  }

  function Execute(params: Result<EditParams>, read: string -> ReadOutcome, writeErr: Option<string>): (o: Outcome) {
    if params.Err? then Outcome("Error: invalid parameters: " + params.error, None)
    else
      var p := params.value;
      if p.filePath == "" then Outcome("Error: file_path is required", None)
      else if p.oldString == "" then Outcome("Error: old_string is required", None)
      else
        match read(p.filePath)
        case NotExist => Outcome("Error: file not found: " + p.filePath, None)
        case ReadFailed(e) => Outcome("Error: " + e, None)
        case Contents(content) =>
          var count := Count(content, p.oldString);
          if count == 0 then Outcome("Error: old_string not found in " + p.filePath, None)
          else if count != 1 then
            Outcome("Error: old_string found " + NatToString(count) + " times in " + p.filePath + " \U{2014} provide more context to make it unique", None)
          else
            var newContent := ReplaceFirst(content, p.oldString, p.newString);
            if writeErr.Some? then Outcome("Error: " + writeErr.value, Some(newContent))
            else Outcome("File edited: " + p.filePath, Some(newContent))
  }

  // ---------------------------------------------------------------------------------------
  // What the tool promises

  /** A missing path or old string is refused before the file is looked at. */
  lemma RequiredBeforeRead(p: EditParams, read: string -> ReadOutcome, other: string -> ReadOutcome, writeErr: Option<string>)
    requires p.filePath == "" || p.oldString == ""
    ensures Execute(Ok(p), read, writeErr) == Execute(Ok(p), other, writeErr)
    ensures Execute(Ok(p), read, writeErr).written.None?
    ensures Execute(Ok(p), read, writeErr).result
      == if p.filePath == "" then "Error: file_path is required" else "Error: old_string is required"
  {
  }

  /** A file that does not exist is reported by name and nothing is written. */
  lemma MissingFile(p: EditParams, read: string -> ReadOutcome, writeErr: Option<string>)
    requires p.filePath != "" && p.oldString != "" && read(p.filePath) == NotExist
    ensures Execute(Ok(p), read, writeErr) == Outcome("Error: file not found: " + p.filePath, None)
  {
  }

  /** The file is written exactly when the old string occurs once, as strings.Count counts. */
  lemma WrittenIffUnique(p: EditParams, read: string -> ReadOutcome, writeErr: Option<string>)
    ensures Execute(Ok(p), read, writeErr).written.Some? <==>
      p.filePath != "" && p.oldString != "" && read(p.filePath).Contents?
      && Count(read(p.filePath).data, p.oldString) == 1
  {
  }

  /** No occurrence: the "not found" error, and the file is left alone. */
  lemma Absent(p: EditParams, content: string, read: string -> ReadOutcome, writeErr: Option<string>)
    requires p.filePath != "" && p.oldString != "" && read(p.filePath) == Contents(content)
    requires !Contains(content, p.oldString)
    ensures Execute(Ok(p), read, writeErr) == Outcome("Error: old_string not found in " + p.filePath, None)
  {
    CountZeroIffAbsent(content, p.oldString);
  }

  /** Several occurrences: an error naming how many, and the file is left alone. */
  lemma Ambiguous(p: EditParams, content: string, read: string -> ReadOutcome, writeErr: Option<string>)
    requires p.filePath != "" && p.oldString != "" && read(p.filePath) == Contents(content)
    requires Count(content, p.oldString) > 1
    ensures Execute(Ok(p), read, writeErr).written.None?
    ensures HasPrefix(Execute(Ok(p), read, writeErr).result, "Error: old_string found " + NatToString(Count(content, p.oldString)) + " times")
  {
    var count := Count(content, p.oldString);
    var lead := "Error: old_string found " + NatToString(count) + " times";
    var tail := " in " + p.filePath + " \U{2014} provide more context to make it unique";
    assert Execute(Ok(p), read, writeErr).result == lead + tail;
  }

  /**
   * One occurrence: the contents split around it into the text before, the old string and
   * the text after, neither of which holds another occurrence; the new contents put the new
   * string in its place, and their length changes by the difference of the two strings.
   */
  lemma UniqueEdit(p: EditParams, content: string, read: string -> ReadOutcome, writeErr: Option<string>)
    requires p.filePath != "" && p.oldString != "" && read(p.filePath) == Contents(content)
    requires Count(content, p.oldString) == 1
    ensures var i := Index(content, p.oldString);
      && 0 <= i && i + |p.oldString| <= |content|
      && (forall j :: 0 <= j < i ==> !OccursAt(content, p.oldString, j))
      && (var before, after := content[..i], content[i + |p.oldString|..];
        && content == before + p.oldString + after
        && !Contains(after, p.oldString)
        && Execute(Ok(p), read, writeErr).written == Some(before + p.newString + after)
        && |before + p.newString + after| == |content| - |p.oldString| + |p.newString|)
  {
    var from := p.oldString;
    CountZeroIffAbsent(content, from);
    CountAfterFirst(content, from);
    var i := Index(content, from);
    var after := content[i + |from|..];
    CountZeroIffAbsent(after, from);
    assert content[i..i + |from|] == from;
    assert content == content[..i] + content[i..i + |from|] + after;
  }

  /** The preview names the path and shows both strings. */
  lemma PreviewShowsEdit(p: EditParams)
    ensures var s := Preview(Ok(p));
      HasPrefix(s, "Edit " + p.filePath) && Contains(s, p.oldString) && HasSuffix(s, p.newString)
  {
    var s := Preview(Ok(p));
    var head := "Edit " + p.filePath + "\n--- old\n";
    var tail := "\n+++ new\n" + p.newString;
    assert s == head + p.oldString + tail by {
      Assoc("Edit " + p.filePath + "\n--- old\n" + p.oldString, "\n+++ new\n", p.newString);
    }
    assert s[|head|..|head| + |p.oldString|] == p.oldString;
    ContainsAt(s, p.oldString, |head|);
    assert s[..|"Edit " + p.filePath|] == "Edit " + p.filePath;
    assert s[|s| - |p.newString|..] == p.newString;
  }
}
