/** The open button: which loader the first chosen file goes to. */
module Opening {
  import opened Scene

  /** What the click handler does with the dialog's answer. The path handed
      on is the one the dialog returned, not its lower-cased copy. */
  datatype Route = NoAction | LoadPdf(path: string) | LoadImage(path: string)

  /** `toLowerCase` on one character, for the ASCII letters. */
  function LowerChar(ch: char): char {
    if 'A' <= ch <= 'Z' then (ch as int - 'A' as int + 'a' as int) as char else ch
  }

  /** `toLowerCase` on a string: no ASCII capital is left, every capital
      becomes its small letter 32 code points up, and every other character
      stays where it was. */
  function ToLower(s: string): (r: string)
    ensures |r| == |s|
    ensures forall i :: 0 <= i < |r| ==> !('A' <= r[i] <= 'Z')
    ensures forall i :: 0 <= i < |s| && 'A' <= s[i] <= 'Z' ==> r[i] as int == s[i] as int + 32
    ensures forall i :: 0 <= i < |s| && !('A' <= s[i] <= 'Z') ==> r[i] == s[i]
  {
    seq(|s|, i requires 0 <= i < |s| => LowerChar(s[i]))
  }

  /** Lower-casing twice is lower-casing once. */
  lemma ToLowerIdempotent(s: string)
    ensures ToLower(ToLower(s)) == ToLower(s)
  {
  }

  function EndsWith(s: string, suffix: string): bool {
    |suffix| <= |s| && s[|s| - |suffix|..] == suffix
  }

  /** The file name ends in ".pdf" in any mix of upper and lower case. */
  predicate HasPdfExtension(path: string) {
    && |path| >= 4
    && path[|path| - 4] == '.'
    && path[|path| - 3] in "pP"
    && path[|path| - 2] in "dD"
    && path[|path| - 1] in "fF"
  }

  /** Lower-casing a character yields `lower` exactly when the character is
      `lower` or its upper-case form. */
  lemma LowerCharIs(ch: char, lower: char, upper: char)
    requires 'a' <= lower <= 'z' && upper as int == lower as int - 'a' as int + 'A' as int
    ensures LowerChar(ch) == lower <==> ch == lower || ch == upper
  {
  }

  /** The handler's extension test agrees with the case-insensitive reading. */
  lemma LowerEndsWithPdf(path: string)
    ensures EndsWith(ToLower(path), ".pdf") <==> HasPdfExtension(path)
  {
    var l := ToLower(path);
    var n := |path|;
    if n >= 4 {
      var t := l[n - 4..];
      assert t == [LowerChar(path[n - 4]), LowerChar(path[n - 3]), LowerChar(path[n - 2]), LowerChar(path[n - 1])];
      assert t == ".pdf" <==> t[0] == '.' && t[1] == 'p' && t[2] == 'd' && t[3] == 'f';
      LowerCharIs(path[n - 3], 'p', 'P');
      LowerCharIs(path[n - 2], 'd', 'D');
      LowerCharIs(path[n - 1], 'f', 'F');
    }
  }

  /** The open-button handler. `filePaths` is None when the dialog returned
      nothing; with no path there is nothing to do, otherwise the first path
      goes to the PDF loader when it ends in ".pdf" (ignoring case) and to the
      image loader in every other case. */
  function OpenDispatch(filePaths: Option<seq<string>>): (r: Route)
    ensures r.NoAction? <==> filePaths.None? || filePaths.value == []
    ensures !r.NoAction? ==> r.path == filePaths.value[0]
    ensures r.LoadPdf? <==> !r.NoAction? && HasPdfExtension(filePaths.value[0])
  {
    match filePaths
    case None => NoAction
    case Some(paths) =>
      if paths == [] then NoAction
      else
        var file := paths[0];
        LowerEndsWithPdf(file);
        if EndsWith(ToLower(file), ".pdf") then LoadPdf(file) else LoadImage(file)
  }

  /** Only the first chosen path matters. */
  lemma OpenDispatchUsesFirstPath(first: string, rest: seq<string>)
    ensures OpenDispatch(Some([first] + rest)) == OpenDispatch(Some([first]))
  {
  }
}
