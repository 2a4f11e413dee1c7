/** `TwitterService.generate_repository_tweet`
    (apps/api/app/services/twitter_service.py): the text of the tweet that
    announces a repository. Lengths count characters, as Python's `len`
    does, so the rocket emoji is one character. */
module Tweet {
  import opened Wrappers
  import opened PyStrings

  /** A value of the `repo_info` dictionary: the key is missing, holds
      `None`, or holds a text. */
  datatype Entry = Missing | Null | Text(value: string)

  datatype RepoInfo = RepoInfo(name: Entry, author: Entry, repoUrl: Entry, description: Entry)

  /** `repo_info.get(key, default)` */
  function GetOr(e: Entry, default: string): Option<string>
  {
    match e
    case Missing => Some(default)
    case Null => None
    case Text(s) => Some(s)
  }

  const Rocket := "\U{1F680}"
  const Hashtags := "#OpenSource #GitHub #Developer #Code"
  const MaxTweetLength := 280
  const MaxDescriptionLength := 200

  /** The first part: the name, and the author when there is one. An author
      that already starts with "@" gets a second "@". */
  function Header(name: Option<string>, author: Option<string>): string
  {
    if Falsy(author) then Rocket + " " + PyStr(name)
    else if StartsWith(author.value, "@") then Rocket + " " + PyStr(name) + " by @" + author.value
    else Rocket + " " + PyStr(name) + " by " + author.value
  }

  /** A description over 200 characters keeps its first 197 and gains "...". */
  function ShortDescription(d: string): (r: string)
    ensures |r| <= MaxDescriptionLength
    ensures |d| <= MaxDescriptionLength ==> r == d
    ensures |d| > MaxDescriptionLength ==> r == d[..197] + "..."
  {
    if |d| > MaxDescriptionLength then d[..MaxDescriptionLength - 3] + "..." else d
  }

  /** `tweet_parts` before any trimming: three parts, or four with a description. */
  function Parts(info: RepoInfo): (r: seq<string>)
    ensures |r| == if Falsy(GetOr(info.description, "")) then 3 else 4
  {
    var description := GetOr(info.description, "");
    [Header(GetOr(info.name, "Unknown"), GetOr(info.author, ""))]
    + (if Falsy(description) then [] else ["\n\n" + ShortDescription(description.value)])
    + ["\n\n" + Hashtags, "\n\n" + PyStr(GetOr(info.repoUrl, ""))]
  }

  /** `"".join(parts)` */
  function Concat(parts: seq<string>): string
  {
    if parts == [] then [] else parts[0] + Concat(parts[1..])
  }

  /** What the exception handler returns. */
  function Fallback(info: RepoInfo): string
  {
    Rocket + " Check out this repository: " + PyStr(GetOr(info.repoUrl, "")) + " #OpenSource #GitHub"
  }

  /** Room left for the description when the tweet is too long (10 characters spare). */
  function Available(parts: seq<string>): int
    requires |parts| == 4
  {
    MaxTweetLength - |parts[0]| - |parts[2]| - |parts[3]| - 10
  }

  /** The tweet. Over 280 characters, only the description is cut again;
      without a description the lookup of the fourth part raises and the
      fallback text is returned. */
  function TweetOf(info: RepoInfo): string
  {
    var parts := Parts(info);
    var built := Concat(parts);
    if |built| <= MaxTweetLength then built
    else if |parts| < 4 then Fallback(info)
    else
      var description := ShortDescription(GetOr(info.description, "").value);
      var available := Available(parts);
      if |description| > available then Concat(parts[1 := "\n\n" + PyPrefix(description, available - 3) + "..."])
      else built
  }

  /** `generate_repository_tweet` */
  method GenerateRepositoryTweet(info: RepoInfo) returns (tweet: string)
    ensures tweet == TweetOf(info)
  {
    var name := GetOr(info.name, "Unknown");
    var author := GetOr(info.author, "");
    var repoUrl := GetOr(info.repoUrl, "");
    var description := GetOr(info.description, "");
    var parts: seq<string> := [];
    if !Falsy(author) {
      if StartsWith(author.value, "@") {
        parts := parts + [Rocket + " " + PyStr(name) + " by @" + author.value];
      } else {
        parts := parts + [Rocket + " " + PyStr(name) + " by " + author.value];
      }
    } else {
      parts := parts + [Rocket + " " + PyStr(name)];
    }
    if !Falsy(description) {
      if |description.value| > MaxDescriptionLength {
        description := Some(description.value[..MaxDescriptionLength - 3] + "...");
      }
      parts := parts + ["\n\n" + description.value];
    }
    parts := parts + ["\n\n" + Hashtags];
    parts := parts + ["\n\n" + PyStr(repoUrl)];
    assert parts == Parts(info);
    tweet := Concat(parts);
    if |tweet| > MaxTweetLength {
      if |parts| < 4 {
        return Fallback(info);
      }
      var available := MaxTweetLength - |parts[0]| - |parts[2]| - |parts[3]| - 10;
      assert description.value == ShortDescription(GetOr(info.description, "").value);
      assert available == Available(Parts(info));
      if |description.value| > available {
        var trimmed := PyPrefix(description.value, available - 3) + "...";
        parts := parts[1 := "\n\n" + trimmed];
        assert "\n\n" + trimmed == "\n\n" + PyPrefix(description.value, available - 3) + "...";
      }
      tweet := Concat(parts);
    }
  }

  lemma Concat3(a: string, b: string, c: string)
    ensures Concat([a, b, c]) == a + b + c
  {
    assert [a, b, c][1..] == [b, c];
    assert [b, c][1..] == [c];
    assert [c][1..] == [];
    assert Concat([c]) == c + Concat([]);
  }

  lemma Concat4(a: string, b: string, c: string, d: string)
    ensures Concat([a, b, c, d]) == a + b + c + d
  {
    assert [a, b, c, d][1..] == [b, c, d];
    Concat3(b, c, d);
  }

  /** An author written with a leading "@" appears as "@@". */
  lemma AuthorAtIsDoubled(name: Option<string>, handle: string)
    ensures Header(name, Some("@" + handle)) == Rocket + " " + PyStr(name) + " by @@" + handle
  {
    assert StartsWith("@" + handle, "@");
  }

  /** The tweet as built: the header, the description part when there is
      one, then the hashtags and the URL, each after a blank line. */
  lemma BuiltLayout(info: RepoInfo)
    ensures var description := GetOr(info.description, "");
            var tail := "\n\n" + Hashtags + "\n\n" + PyStr(GetOr(info.repoUrl, ""));
            var header := Header(GetOr(info.name, "Unknown"), GetOr(info.author, ""));
            Concat(Parts(info)) == if Falsy(description) then header + tail
                                   else header + "\n\n" + ShortDescription(description.value) + tail
  {
    var parts := Parts(info);
    if |parts| == 3 {
      Concat3(parts[0], parts[1], parts[2]);
    } else {
      Concat4(parts[0], parts[1], parts[2], parts[3]);
    }
  }

  /** A tweet of at most 280 characters is returned as built; only a longer
      tweet without a description falls back to the fixed text. */
  lemma TweetIsBuiltOrFallback(info: RepoInfo)
    ensures |Concat(Parts(info))| <= MaxTweetLength ==> TweetOf(info) == Concat(Parts(info))
    ensures TweetOf(info) == Fallback(info)
            <== |Concat(Parts(info))| > MaxTweetLength && Falsy(GetOr(info.description, ""))
  {
  }

  /** Whenever it is not the fallback, the tweet starts with the header and
      ends with the hashtags and the URL. */
  lemma TweetFrame(info: RepoInfo)
    requires !(|Concat(Parts(info))| > MaxTweetLength && Falsy(GetOr(info.description, "")))
    ensures StartsWith(TweetOf(info), Header(GetOr(info.name, "Unknown"), GetOr(info.author, "")))
    ensures EndsWith(TweetOf(info), "\n\n" + Hashtags + "\n\n" + PyStr(GetOr(info.repoUrl, "")))
  {
    var parts := Parts(info);
    assert parts[|parts| - 2] + parts[|parts| - 1] == "\n\n" + Hashtags + "\n\n" + PyStr(GetOr(info.repoUrl, ""));
    if |parts| == 3 {
      assert parts == [parts[0], parts[1], parts[2]];
      Frame3(parts[0], parts[1], parts[2]);
    } else {
      var d := ShortDescription(GetOr(info.description, "").value);
      var q := if |Concat(parts)| <= MaxTweetLength || |d| <= Available(parts) then parts
               else parts[1 := "\n\n" + PyPrefix(d, Available(parts) - 3) + "..."];
      assert TweetOf(info) == Concat(q);
      assert q == [q[0], q[1], q[2], q[3]];
      Frame4(q[0], q[1], q[2], q[3]);
    }
  }

  /** The joined parts start with the first part and end with the last two. */
  lemma Frame3(a: string, b: string, c: string)
    ensures StartsWith(Concat([a, b, c]), a) && EndsWith(Concat([a, b, c]), b + c)
  {
    Concat3(a, b, c);
    assert a + b + c == a + [] + (b + c);
    Surrounds(a, [], b + c);
  }

  lemma Frame4(a: string, b: string, c: string, d: string)
    ensures StartsWith(Concat([a, b, c, d]), a) && EndsWith(Concat([a, b, c, d]), c + d)
  {
    Concat4(a, b, c, d);
    assert a + b + c + d == a + b + (c + d);
    Surrounds(a, b, c + d);
  }

  lemma Surrounds(a: string, b: string, c: string)
    ensures StartsWith(a + b + c, a) && EndsWith(a + b + c, c)
  {
    var s := a + b + c;
    assert s[..|a|] == a;
    assert s[|s| - |c|..] == c;
  }

  /** When the header, hashtags and URL leave room for at least three
      characters of description, the cut tweet is exactly 272 characters. */
  lemma TrimmedTweetFits(info: RepoInfo)
    requires !Falsy(GetOr(info.description, "")) && |Concat(Parts(info))| > MaxTweetLength
    requires Available(Parts(info)) >= 3
    ensures |TweetOf(info)| == MaxTweetLength - 8
  {
    var parts := Parts(info);
    var d := ShortDescription(GetOr(info.description, "").value);
    assert parts == [parts[0], parts[1], parts[2], parts[3]];
    Concat4(parts[0], parts[1], parts[2], parts[3]);
    assert parts[1] == "\n\n" + d;
    assert |d| > Available(parts) + 8;
    var q := parts[1 := "\n\n" + PyPrefix(d, Available(parts) - 3) + "..."];
    assert TweetOf(info) == Concat(q);
    assert q == [q[0], q[1], q[2], q[3]];
    Concat4(q[0], q[1], q[2], q[3]);
    assert |q[1]| == Available(parts) + 2;
  }

  /** With 0 to 2 characters of room, `description[:available_chars-3]`
      has a negative bound and counts from the end: it keeps all but
      `3 - available` characters, so the cut tweet is 272 characters plus
      the description, still over 280. */
  lemma NegativeCutOvershoots(info: RepoInfo)
    requires !Falsy(GetOr(info.description, "")) && |Concat(Parts(info))| > MaxTweetLength
    requires 0 <= Available(Parts(info)) < 3
    ensures |TweetOf(info)| == MaxTweetLength - 8 + |ShortDescription(GetOr(info.description, "").value)|
    ensures |TweetOf(info)| > MaxTweetLength
  {
    var parts := Parts(info);
    var d := ShortDescription(GetOr(info.description, "").value);
    assert parts == [parts[0], parts[1], parts[2], parts[3]];
    Concat4(parts[0], parts[1], parts[2], parts[3]);
    assert parts[1] == "\n\n" + d;
    assert |d| > Available(parts) + 8;
    var q := parts[1 := "\n\n" + PyPrefix(d, Available(parts) - 3) + "..."];
    assert TweetOf(info) == Concat(q);
    assert q == [q[0], q[1], q[2], q[3]];
    Concat4(q[0], q[1], q[2], q[3]);
    assert |q[1]| == |d| + Available(parts) + 2;
  }

  /** With less than three characters of room, but header, hashtags and URL
      within 280 characters, the length is exact either way. A description
      long enough for the negative slice gives 272 plus its length; a shorter
      one is emptied, leaving the other parts plus five characters. So the
      tweet fits exactly when that description has at most 8 characters, or
      when the emptied cut leaves at least -5 characters of room. */
  lemma {:induction false} NegativeCutLength(info: RepoInfo)
    requires !Falsy(GetOr(info.description, "")) && |Concat(Parts(info))| > MaxTweetLength
    requires -10 <= Available(Parts(info)) < 3
    ensures var d := ShortDescription(GetOr(info.description, "").value);
            var available := Available(Parts(info));
            && (|d| + available >= 3 ==> |TweetOf(info)| == MaxTweetLength - 8 + |d|)
            && (|d| + available < 3 ==> |TweetOf(info)| == MaxTweetLength - 5 - available)
            && (|TweetOf(info)| <= MaxTweetLength <==> if |d| + available >= 3 then |d| <= 8 else available >= -5)
  {
    var parts := Parts(info);
    var d := ShortDescription(GetOr(info.description, "").value);
    assert parts == [parts[0], parts[1], parts[2], parts[3]];
    Concat4(parts[0], parts[1], parts[2], parts[3]);
    assert parts[1] == "\n\n" + d;
    assert |d| > Available(parts) + 8;
    var q := parts[1 := "\n\n" + PyPrefix(d, Available(parts) - 3) + "..."];
    assert TweetOf(info) == Concat(q);
    assert q == [q[0], q[1], q[2], q[3]];
    Concat4(q[0], q[1], q[2], q[3]);
  }

  /** A header, hashtags and URL that alone pass 280 characters keep the
      tweet over the limit: only the description is ever cut. */
  lemma LongHeaderOrUrlExceeds(info: RepoInfo)
    requires !Falsy(GetOr(info.description, ""))
    requires var parts := Parts(info); |parts[0]| + |parts[2]| + |parts[3]| > MaxTweetLength
    ensures |TweetOf(info)| > MaxTweetLength
  {
    var parts := Parts(info);
    var d := ShortDescription(GetOr(info.description, "").value);
    assert parts == [parts[0], parts[1], parts[2], parts[3]];
    Concat4(parts[0], parts[1], parts[2], parts[3]);
    var q := parts[1 := "\n\n" + PyPrefix(d, Available(parts) - 3) + "..."];
    assert q == [q[0], q[1], q[2], q[3]];
    Concat4(q[0], q[1], q[2], q[3]);
    assert TweetOf(info) == Concat(q) || TweetOf(info) == Concat(parts);
  }
}
