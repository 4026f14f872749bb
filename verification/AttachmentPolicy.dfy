/** Which files may be attached, and when a stored object is the file its row announced. */
module AttachmentPolicy {
  import opened Basics
  import opened ReplyAddress

  const ImageTypes: map<string, set<string>> :=
    map["image/jpeg" := {".jpg", ".jpeg"}, "image/png" := {".png"}, "image/webp" := {".webp"}, "image/gif" := {".gif"}]

  const DocumentTypes: map<string, set<string>> :=
    map["application/pdf" := {".pdf"},
        "text/plain" := {".txt"},
        "text/csv" := {".csv"},
        "application/vnd.openxmlformats-officedocument.wordprocessingml.document" := {".docx"},
        "application/vnd.openxmlformats-officedocument.spreadsheetml.sheet" := {".xlsx"},
        "application/vnd.openxmlformats-officedocument.presentationml.presentation" := {".pptx"}]

  /** The file name extensions of an allowed content type; none for any other. */
  function ExtensionsOf(normal: string): set<string> {
    if normal in ImageTypes then ImageTypes[normal]
    else if normal in DocumentTypes then DocumentTypes[normal]
    else {}
  }

  function BeforeSemicolon(s: string): (r: string)
    ensures ';' !in r && r <= s
    ensures r != s ==> s[|r|] == ';'
  {
    if s == [] || s[0] == ';' then [] else [s[0]] + BeforeSemicolon(s[1..])
  }

  function NormalizeContentType(contentType: string): string {
    Lower(Trim(BeforeSemicolon(contentType)))
  }

  predicate IsAllowedContentType(contentType: string) {
    NormalizeContentType(contentType) in ImageTypes || NormalizeContentType(contentType) in DocumentTypes
  }

  predicate EndsWith(s: string, suffix: string) {
    |suffix| <= |s| && s[|s| - |suffix|..] == suffix
  }

  predicate FilenameMatches(filename: string, contentType: string) {
    exists extension :: extension in ExtensionsOf(NormalizeContentType(contentType)) && EndsWith(Lower(filename), extension)
  }

  /** The allowed types. */
  lemma {:induction false} AllowedExactly(contentType: string)
    ensures IsAllowedContentType(contentType) <==>
            NormalizeContentType(contentType) in
              {"application/pdf", "image/jpeg", "image/png", "image/webp", "image/gif", "text/plain", "text/csv",
               "application/vnd.openxmlformats-officedocument.wordprocessingml.document",
               "application/vnd.openxmlformats-officedocument.spreadsheetml.sheet",
               "application/vnd.openxmlformats-officedocument.presentationml.presentation"}
  {
  }

  /** A file name fits an allowed type by its ending. */
  lemma {:induction false} EndingsExactly(contentType: string, filename: string, ending: string)
    requires OneEnding(NormalizeContentType(contentType), ending)
    ensures FilenameMatches(filename, contentType) <==> EndsWith(Lower(filename), ending)
  {
    TheEnding(NormalizeContentType(contentType), ending);
  }

  lemma {:induction false} TheEnding(t: string, ending: string)
    requires OneEnding(t, ending)
    ensures ExtensionsOf(t) == {ending}
  {
  }

  lemma {:induction false} JpegEndings(contentType: string, filename: string)
    requires NormalizeContentType(contentType) == "image/jpeg"
    ensures FilenameMatches(filename, contentType) <==> EndsWith(Lower(filename), ".jpg") || EndsWith(Lower(filename), ".jpeg")
  {
    assert ExtensionsOf("image/jpeg") == {".jpg", ".jpeg"};
  }

  predicate OneEnding(t: string, ending: string) {
    || (t == "application/pdf" && ending == ".pdf") || (t == "image/png" && ending == ".png")
    || (t == "image/webp" && ending == ".webp") || (t == "image/gif" && ending == ".gif")
    || (t == "text/plain" && ending == ".txt") || (t == "text/csv" && ending == ".csv")
    || (t == "application/vnd.openxmlformats-officedocument.wordprocessingml.document" && ending == ".docx")
    || (t == "application/vnd.openxmlformats-officedocument.spreadsheetml.sheet" && ending == ".xlsx")
    || (t == "application/vnd.openxmlformats-officedocument.presentationml.presentation" && ending == ".pptx")
  }

  /** What a content type is taken for: its text up to the first semicolon, trimmed and lower-cased. */
  lemma {:induction false} TypeIsFirstPart(contentType: string) returns (k: nat)
    ensures k <= |contentType| && ';' !in contentType[..k] && (k == |contentType| || contentType[k] == ';')
    ensures NormalizeContentType(contentType) == Lower(Trim(contentType[..k]))
  {
    k := |BeforeSemicolon(contentType)|;
    assert contentType[..k] == BeforeSemicolon(contentType);
  }

  /** Parameters after a semicolon do not change what a content type is. */
  lemma {:induction false} ParametersDoNotMatter(contentType: string, parameters: string)
    requires ';' !in contentType
    ensures NormalizeContentType(contentType + ";" + parameters) == NormalizeContentType(contentType)
  {
    StopsAtSemicolon(contentType, ";" + parameters);
    StopsAtSemicolon(contentType, "");
    assert contentType + ";" + parameters == contentType + (";" + parameters);
    assert contentType + "" == contentType;
  }

  lemma {:induction false} StopsAtSemicolon(s: string, rest: string)
    requires ';' !in s && (rest == "" || rest[0] == ';')
    ensures BeforeSemicolon(s + rest) == s
  {
    if s == [] {
      assert s + rest == rest;
    } else {
      assert s[0] in s;
      StopsAtSemicolon(s[1..], rest);
      assert (s + rest)[1..] == s[1..] + rest;
    }
  }
}
