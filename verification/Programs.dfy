/** Programs run in the sandbox, and the token comparison applied to what they print. */
module Programs {

  /** What one execution yields; a run that is killed on its time limit reports exit code -9. */
  datatype ExecResult =
    | Exited(stdout: string, stderr: string, code: int)
    | TimedOut(stdout: string)
  {
    function Code(): int { if TimedOut? then -9 else code }
  }

  /** Command-line arguments: a generator gets a seed and a size, a checker the contents of three files. */
  datatype Args =
    | NoArgs
    | SeedSize(seed: int, size: int)
    | Contents(input: string, answer: string, reference: string)
    | SyntaxOnly

  /** Executing a program text is an uninterpreted deterministic function of text, arguments, stdin and time limit. */
  type Machine = (string, Args, string, int) -> ExecResult

  /** One container: the files put into it and the compiled program under test. */
  datatype Sandbox = Sandbox(machine: Machine, files: map<string, string>, user: string) {
    function Run(name: string, args: Args, stdin: string, timeout: int): ExecResult {
      if name in files then machine(files[name], args, stdin, timeout) else Exited("", "no such file", 2)
    }

    function RunUser(stdin: string, timeout: int): ExecResult {
      machine(user, NoArgs, stdin, timeout)
    }

    function Put(name: string, content: string): Sandbox {
      this.(files := files[name := content])
    }
  }

  predicate IsSpace(c: char) {
    c in {' ', '\t', '\n', '\r', '\U{000B}', '\U{000C}', '\U{001C}', '\U{001D}', '\U{001E}', '\U{001F}'}
  }

  /** The separators of the ASCII range by their codes: tab to carriage return, the four information separators, space. */
  lemma SpacesByCode(c: char)
    ensures IsSpace(c) <==> 9 <= c as int <= 13 || 28 <= c as int <= 32
  {}

  ghost predicate Blank(text: string) {
    forall i :: 0 <= i < |text| ==> IsSpace(text[i])
  }

  /** The maximal runs of non-space characters, where `word` is the run read so far. */
  function TokensFrom(text: string, word: string): seq<string> {
    if text == "" then Flush(word)
    else if IsSpace(text[0]) then Flush(word) + TokensFrom(text[1..], "")
    else TokensFrom(text[1..], word + [text[0]])
  }

  function Flush(word: string): seq<string> { if word == "" then [] else [word] }

  function Tokens(text: string): seq<string> { TokensFrom(text, "") }

  /** A separator splits a text into two that are tokenised independently. */
  lemma {:induction false} TokensAcrossSpace(left: string, word: string, space: char, right: string)
    requires IsSpace(space)
    ensures TokensFrom(left + [space] + right, word) == TokensFrom(left, word) + Tokens(right)
  {
    var text := left + [space] + right;
    if left == "" {
      assert text[1..] == right;
    } else {
      assert text[1..] == left[1..] + [space] + right;
      if IsSpace(left[0]) {
        TokensAcrossSpace(left[1..], "", space, right);
      } else {
        TokensAcrossSpace(left[1..], word + [left[0]], space, right);
      }
    }
  }

  /** Output that strips to nothing is exactly output without tokens. */
  lemma {:induction false} NoTokensIffBlank(text: string, word: string)
    ensures TokensFrom(text, word) == [] <==> word == "" && Blank(text)
  {
    if text != "" {
      assert forall i :: 0 <= i < |text[1..]| ==> text[1..][i] == text[i + 1];
      if IsSpace(text[0]) {
        NoTokensIffBlank(text[1..], "");
        assert Blank(text) <==> Blank(text[1..]) by {
          if Blank(text[1..]) {
            forall i | 0 <= i < |text| ensures IsSpace(text[i]) {
              if i > 0 { assert text[i] == text[1..][i - 1]; }
            }
          }
        }
      } else {
        NoTokensIffBlank(text[1..], word + [text[0]]);
      }
    }
  }

  /** Spacing at the end of a line or of the file is no difference. */
  lemma {:induction false} TrailingSpaceIsInvisible(text: string, padding: string)
    requires Blank(padding)
    ensures Tokens(text + padding) == Tokens(text)
  {
    if padding == "" {
      assert text + padding == text;
    } else {
      assert text + padding == text + [padding[0]] + padding[1..];
      TokensAcrossSpace(text, "", padding[0], padding[1..]);
      NoTokensIffBlank(padding[1..], "");
    }
  }

  function Unwords(words: seq<string>): string {
    if words == [] then "" else words[0] + [' '] + Unwords(words[1..])
  }

  lemma {:induction false} WordIsOneToken(word: string, read: string)
    requires forall i :: 0 <= i < |word| ==> !IsSpace(word[i])
    ensures TokensFrom(word, read) == Flush(read + word)
  {
    if word == "" {
      assert read + word == read;
    } else {
      WordIsOneToken(word[1..], read + [word[0]]);
      assert read + [word[0]] + word[1..] == read + word;
    }
  }

  /** Tokens recovers exactly the words that were printed. */
  lemma {:induction false} TokensOfUnwords(words: seq<string>)
    requires forall w :: w in words ==> w != "" && forall i :: 0 <= i < |w| ==> !IsSpace(w[i])
    ensures Tokens(Unwords(words)) == words
  {
    if words != [] {
      var w := words[0];
      assert w in words;
      TokensAcrossSpace(w, "", ' ', Unwords(words[1..]));
      WordIsOneToken(w, "");
      assert "" + w == w;
      TokensOfUnwords(words[1..]);
    }
  }
}
