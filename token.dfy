/** Loading the bearer token from the token file (`APIClient._load_token`).
    The file system is an input: what the read produced. */
module Token {
  import opened Wrappers
  import opened Text

  /** What reading the token file gave: no file at the path, a file that
      could not be opened or decoded, or its text. */
  datatype TokenFile = Missing | Unreadable | Contents(text: string)

  /** The token is the file's text without surrounding whitespace, and there
      is none when the file is missing, unreadable or blank. */
  function LoadToken(file: TokenFile): (token: Option<string>)
    ensures token.Some? <==> file.Contents? && !AllIn(file.text, Whitespace)
    ensures token.Some? ==> token.value != ""
    ensures token.Some? ==> token.value[0] !in Whitespace && token.value[|token.value| - 1] !in Whitespace
  {
    match file
    case Missing => None
    case Unreadable => None
    case Contents(text) =>
      var stripped := Strip(text, Whitespace);
      if stripped == "" then None else Some(stripped)
  }

  /** A token surrounded by any whitespace (a trailing newline, say) is
      loaded as exactly that token. */
  lemma LoadTokenTrims(lead: string, token: string, trail: string)
    requires AllIn(lead, Whitespace) && AllIn(trail, Whitespace)
    requires token != "" && token[0] !in Whitespace && token[|token| - 1] !in Whitespace
    ensures LoadToken(Contents(lead + token + trail)) == Some(token)
  {
    StripRecoversCore(lead, token, trail, Whitespace);
  }

  /** Writing a loaded token back to the file and loading again gives the
      same token. */
  lemma LoadTokenRoundTrip(file: TokenFile)
    requires LoadToken(file).Some?
    ensures LoadToken(Contents(LoadToken(file).value)) == LoadToken(file)
  {
    var token := LoadToken(file).value;
    assert "" + token + "" == token;
    LoadTokenTrims("", token, "");
  }

  /** A file holding `test_token_12345` gives that token; an empty file gives none. */
  lemma LoadTokenExamples()
    ensures LoadToken(Contents("test_token_12345")) == Some("test_token_12345")
    ensures LoadToken(Contents("")) == None
    ensures LoadToken(Contents(" \n")) == None
  {
    var token := "test_token_12345";
    assert token[0] == 't' && token[|token| - 1] == '5';
    assert 't' !in Whitespace && '5' !in Whitespace;
    assert "" + token + "" == token;
    LoadTokenTrims("", token, "");
    assert AllIn("", Whitespace);
    assert AllIn(" \n", Whitespace);
  }
}
