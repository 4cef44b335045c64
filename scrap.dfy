/**
 * The deterministic helpers of the site crawler: the file name derived from a page URL, the
 * Markdown text saved for a page, the batches of URLs handed to the crawler, and the --limit
 * truncation of the URL list.
 *
 * urlparse(url).path and hashlib.md5(url.encode()).hexdigest() are inputs: the path component
 * of the URL and its 32-digit lower-case hex MD5 digest.
 */
module Scrap {
  import opened Common
  import opened Text
  import opened Batching

  // ---------------------------------------------------------------------------------------
  // generate_short_filename

  /** The characters generate_short_filename turns into '_'. */
  predicate Unsafe(c: char)
  {
    c == '/' || c == '?' || c == '&' || c == '='
  }

  /** A 32-digit lower-case hex string, as hexdigest() returns. */
  predicate IsDigest(digest: string)
  {
    |digest| == 32 && IsLowerHex(digest)
  }

  /** The three replace calls of the second line: '?', '&' and '=' become '_'. */
  function Sanitize(s: string): (r: string)
    ensures |r| == |s|
    ensures forall i :: 0 <= i < |s| ==> r[i] == (if s[i] == '?' || s[i] == '&' || s[i] == '=' then '_' else s[i])
  {
    Replace(Replace(Replace(s, '?', '_'), '&', '_'), '=', '_')
  }

  /**
   * The name part: the path with '/' replaced by '_' and its first character dropped,
   * "index" when that leaves nothing, then '?', '&' and '=' replaced by '_'.
   */
  function Stem(path: string): (stem: string)
    ensures |path| <= 1 ==> stem == "index"
    ensures |path| > 1 ==> |stem| == |path| - 1
  {
    var slashless := Replace(path, '/', '_');
    var tail := if slashless == [] then [] else slashless[1..];
    var named := if tail == [] then "index" else tail;
    SanitizeIndex();
    Sanitize(named)
  }

  /** A string without '?', '&' and '=' is left as it is. */
  lemma SanitizeKeeps(s: string)
    requires forall i :: 0 <= i < |s| ==> s[i] != '?' && s[i] != '&' && s[i] != '='
    ensures Sanitize(s) == s
  {
    assert forall i :: 0 <= i < |s| ==> Sanitize(s)[i] == s[i];
  }

  lemma SanitizeIndex()
    ensures Sanitize("index") == "index"
  {
    SanitizeKeeps("index");
  }

  /** Past the first character, each character of the path is kept, or replaced by '_' when unsafe. */
  lemma StemChars(path: string)
    requires |path| > 1
    ensures forall i :: 0 <= i < |Stem(path)| ==>
              Stem(path)[i] == (if Unsafe(path[i + 1]) then '_' else path[i + 1])
  {
    var slashless := Replace(path, '/', '_');
    var tail := slashless[1..];
    assert Stem(path) == Sanitize(tail);
    forall i | 0 <= i < |tail|
      ensures Sanitize(tail)[i] == (if Unsafe(path[i + 1]) then '_' else path[i + 1])
    {
      assert tail[i] == slashless[i + 1];
    }
  }

  /** The stem holds none of '/', '?', '&' and '='. */
  lemma StemSafe(path: string)
    ensures Safe(Stem(path))
  {
    var stem := Stem(path);
    if |path| > 1 {
      StemChars(path);
      forall i | 0 <= i < |stem|
        ensures !Unsafe(stem[i])
      {
      }
    } else {
      assert stem == "index";
      forall i | 0 <= i < |stem|
        ensures !Unsafe(stem[i])
      {
        assert stem[i] in "index";
      }
    }
  }

  /** The choice generate_short_filename makes once it has the stem and the 8-digit hash. */
  function NameFromStem(stem: string, hash: string, maxLength: int): (name: string)
    requires |hash| == 8
    ensures EndsWith(name, ".md")
    ensures |name| <= (if maxLength < 11 then 11 else maxLength)
  {
    if |stem| <= maxLength - 3 then
      stem + ".md"
    else
      var pathPartLength := maxLength - 3 - 9;
      if pathPartLength > 0 then stem[..pathPartLength] + "_" + hash + ".md"
      else hash + ".md"
  }

  /** generate_short_filename(url, max_length), for the url whose path is path and whose MD5 digest is digest. */
  function GenerateShortFilename(path: string, digest: string, maxLength: int): (name: string)
    requires IsDigest(digest)
    ensures EndsWith(name, ".md")
    ensures |name| <= (if maxLength < 11 then 11 else maxLength)
  {
    NameFromStem(Stem(path), digest[..8], maxLength)
  }

  lemma ConcatSplit(a: string, b: string)
    ensures (a + b)[..|a|] == a && (a + b)[|a|..] == b
  {
  }

  /** A stem that fits in maxLength together with ".md" is used whole. */
  lemma ShortForm(path: string, digest: string, maxLength: int)
    requires IsDigest(digest) && |Stem(path)| <= maxLength - 3
    ensures GenerateShortFilename(path, digest, maxLength) == Stem(path) + ".md"
    ensures |GenerateShortFilename(path, digest, maxLength)| <= maxLength
  {
  }

  lemma {:induction false} LongStem(stem: string, hash: string, maxLength: int)
    requires |hash| == 8 && |stem| > maxLength - 3 && maxLength > 12
    ensures |NameFromStem(stem, hash, maxLength)| == maxLength
    ensures NameFromStem(stem, hash, maxLength)[..maxLength - 12] == stem[..maxLength - 12]
    ensures NameFromStem(stem, hash, maxLength)[maxLength - 12..] == "_" + hash + ".md"
  {
    var prefix := stem[..maxLength - 12];
    var suffix := "_" + hash + ".md";
    assert NameFromStem(stem, hash, maxLength) == prefix + "_" + hash + ".md";
    assert prefix + "_" + hash + ".md" == prefix + suffix;
    ConcatSplit(prefix, suffix);
  }

  /**
   * A longer stem, with maxLength > 12: exactly maxLength characters, the first maxLength - 12
   * characters of the stem, then '_' and the first 8 hex digits of the digest, then ".md".
   */
  lemma {:induction false} LongForm(path: string, digest: string, maxLength: int)
    requires IsDigest(digest) && |Stem(path)| > maxLength - 3 && maxLength > 12
    ensures |GenerateShortFilename(path, digest, maxLength)| == maxLength
    ensures GenerateShortFilename(path, digest, maxLength)[..maxLength - 12] == Stem(path)[..maxLength - 12]
    ensures GenerateShortFilename(path, digest, maxLength)[maxLength - 12..] == "_" + digest[..8] + ".md"
  {
    LongStem(Stem(path), digest[..8], maxLength);
  }

  /** A longer stem, with maxLength <= 12: the 8 hex digits of the hash alone, then ".md". */
  lemma HashForm(path: string, digest: string, maxLength: int)
    requires IsDigest(digest) && |Stem(path)| > maxLength - 3 && maxLength <= 12
    ensures GenerateShortFilename(path, digest, maxLength) == digest[..8] + ".md"
  {
  }

  /** No character of s is one that generate_short_filename replaces. */
  predicate Safe(s: string)
  {
    forall i :: 0 <= i < |s| ==> !Unsafe(s[i])
  }

  lemma SafeConcat(x: string, y: string)
    requires Safe(x) && Safe(y)
    ensures Safe(x + y)
  {
    forall i | 0 <= i < |x + y|
      ensures !Unsafe((x + y)[i])
    {
      if i < |x| {
        assert (x + y)[i] == x[i];
      } else {
        assert (x + y)[i] == y[i - |x|];
      }
    }
  }

  /** The name never holds '/', '?', '&' or '='. */
  lemma FilenameSafe(path: string, digest: string, maxLength: int)
    requires IsDigest(digest)
    ensures Safe(GenerateShortFilename(path, digest, maxLength))
  {
    var stem := Stem(path);
    StemSafe(path);
    var hash := digest[..8];
    assert Safe(hash) by {
      assert forall i :: 0 <= i < |hash| ==> IsHexDigit(hash[i]);
    }
    assert Safe(".md") && Safe("_");
    if |stem| <= maxLength - 3 {
      SafeConcat(stem, ".md");
    } else if maxLength - 12 > 0 {
      var prefix := stem[..maxLength - 12];
      assert Safe(prefix);
      SafeConcat(prefix, "_");
      SafeConcat(prefix + "_", hash);
      SafeConcat(prefix + "_" + hash, ".md");
    } else {
      SafeConcat(hash, ".md");
    }
  }

  /** A path of at most one character ("" or "/") gives "index.md" whenever eight characters fit. */
  lemma IndexName(path: string, digest: string, maxLength: int)
    requires IsDigest(digest) && |path| <= 1 && maxLength >= 8
    ensures GenerateShortFilename(path, digest, maxLength) == "index.md"
  {
  }

  /**
   * The short form loses nothing: for "/" followed by a name free of '/', '?', '&' and '=',
   * the file name is that name with ".md" added, so the path can be read back from it.
   */
  lemma {:induction false} ShortNameKeepsPath(name: string, digest: string, maxLength: int)
    requires IsDigest(digest) && name != [] && |name| <= maxLength - 3
    requires forall i :: 0 <= i < |name| ==> !Unsafe(name[i])
    ensures GenerateShortFilename("/" + name, digest, maxLength) == name + ".md"
    ensures "/" + GenerateShortFilename("/" + name, digest, maxLength)[..|name|] == "/" + name
  {
    var stem := Stem("/" + name);
    StemChars("/" + name);
    assert |stem| == |name|;
    forall i | 0 <= i < |stem|
      ensures stem[i] == name[i]
    {
      assert ("/" + name)[i + 1] == name[i];
    }
    assert stem == name;
  }

  /** The default maximum of 20: a long path keeps 8 characters, then '_' and 8 hex digits of the hash. */
  lemma DefaultLongName(path: string, digest: string)
    requires IsDigest(digest) && |Stem(path)| > 17
    ensures |GenerateShortFilename(path, digest, 20)| == 20
    ensures GenerateShortFilename(path, digest, 20) == Stem(path)[..8] + "_" + digest[..8] + ".md"
  {
    LongForm(path, digest, 20);
  }

  // ---------------------------------------------------------------------------------------
  // save_as_markdown

  /** The crawler result passed as content: a string, or any other Python value. */
  datatype Content = Str(value: string) | Other

  const NoUsableContent := "No usable content extracted.\n"

  /** The header line naming the page, then a blank line. */
  function Header(url: string): string
  {
    "# " + url + "\n\n"
  }

  /** A string with a character that is not white space. */
  predicate HasText(content: Content)
  {
    content.Str? && exists i :: 0 <= i < |content.value| && !IsSpace(content.value[i])
  }

  /**
   * save_as_markdown: the name of the file written under the output directory (max_length 20)
   * and the Markdown text written to it.
   */
  method SaveAsMarkdown(url: string, path: string, digest: string, content: Content)
    returns (filename: string, markdown: string)
    requires IsDigest(digest)
    ensures filename == GenerateShortFilename(path, digest, 20)
    ensures |filename| <= 20 && EndsWith(filename, ".md")
    ensures |markdown| > |Header(url)| && markdown[..|Header(url)|] == Header(url)
    ensures HasText(content) ==> markdown == Header(url) + content.value
    ensures !HasText(content) ==> markdown == Header(url) + NoUsableContent
  {
    filename := GenerateShortFilename(path, digest, 20);
    markdown := "# " + url + "\n\n";
    if content.Str? && Strip(content.value) != [] {
      StripEmptyIff(content.value);
      markdown := markdown + content.value;
    } else {
      if content.Str? {
        StripEmptyIff(content.value);
      }
      markdown := markdown + NoUsableContent;
    }
  }

  // ---------------------------------------------------------------------------------------
  // crawl_website

  /** The batches urls[i:i+batch_size] for i in range(0, len(urls), batch_size), in crawl order. */
  method CrawlWebsite(urls: seq<string>, batchSize: int) returns (r: Result<seq<seq<string>>>)
    ensures batchSize == 0 ==> r == Err(ZeroStep)
    ensures batchSize < 0 ==> r == Ok([])
    ensures batchSize > 0 ==> r == Ok(Chunks(urls, batchSize))
  {
    if batchSize == 0 {
      return Err(ZeroStep);
    }
    var batches: seq<seq<string>> := [];
    if batchSize < 0 {
      return Ok(batches);
    }
    var i := 0;
    ghost var done := 0;
    while i < |urls|
      invariant 0 <= done <= |urls| && done == Min(i, |urls|)
      invariant Chunks(urls, batchSize) == batches + Chunks(urls[done..], batchSize)
    {
      var end := Min(i + batchSize, |urls|);
      var batchUrls := urls[i..end];
      ChunksAfter(urls, batchSize, i, end);
      batches := batches + [batchUrls];
      i := i + batchSize;
      done := end;
    }
    assert Chunks(urls[done..], batchSize) == [];
    assert batches + [] == batches;
    return Ok(batches);
  }

  /** The batches put back together are the URL list, none is empty and none exceeds the batch size. */
  lemma CrawlBatches(urls: seq<string>, batchSize: nat)
    requires batchSize > 0
    ensures Flatten(Chunks(urls, batchSize)) == urls
    ensures forall j :: 0 <= j < |Chunks(urls, batchSize)| ==> 0 < |Chunks(urls, batchSize)[j]| <= batchSize
    ensures |urls| <= |Chunks(urls, batchSize)| * batchSize
    ensures |urls| > 0 ==> (|Chunks(urls, batchSize)| - 1) * batchSize < |urls|
  {
    FlattenChunks(urls, batchSize);
    ChunksSizes(urls, batchSize);
    ChunksCount(urls, batchSize);
  }

  // ---------------------------------------------------------------------------------------
  // main: --limit

  /** all_urls[:limit] when limit > 0 and there are more URLs than limit; otherwise all_urls. */
  function ApplyLimit(urls: seq<string>, limit: int): (kept: seq<string>)
    ensures kept <= urls
    ensures |kept| == (if 0 < limit < |urls| then limit else |urls|)
  {
    if limit > 0 && |urls| > limit then urls[..limit] else urls
  }

  /** Applying the same limit twice changes nothing more. */
  lemma {:induction false} ApplyLimitIdempotent(urls: seq<string>, limit: int)
    ensures ApplyLimit(ApplyLimit(urls, limit), limit) == ApplyLimit(urls, limit)
  {
    var once := ApplyLimit(urls, limit);
    assert |once| <= limit || limit <= 0;
  }
}
