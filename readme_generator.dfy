/**
 * `ReadmeGenerator`: the short name it normalises for use in image URLs, and the five
 * image-link lines its `write` puts in the project's README.
 */
module ReadmeGeneration {

  datatype Option<T> = None | Some(value: T)

  /** The repository's raw-file prefix that every image link starts with. */
  const BaseUrl: string := "https://github.com/JordiCorbilla/stock-prediction-deep-neural-learning/raw/master/"

  /** The characters Python's `str.strip()` removes: those `str.isspace()` accepts. */
  predicate IsWhitespace(c: char)
  {
    var n := c as int;
    || 9 <= n <= 13 || 28 <= n <= 32 || n == 0x85 || n == 0xA0 || n == 0x1680
    || 0x2000 <= n <= 0x200A || n == 0x2028 || n == 0x2029 || n == 0x202F
    || n == 0x205F || n == 0x3000
  }

  /** The number of whitespace characters the string starts with. */
  function LeadingWhitespace(s: string): (n: nat)
    ensures n <= |s|
    ensures forall k :: 0 <= k < n ==> IsWhitespace(s[k])
    ensures n == |s| || !IsWhitespace(s[n])
  {
    if s != [] && IsWhitespace(s[0]) then 1 + LeadingWhitespace(s[1..]) else 0
  }

  /** The number of whitespace characters the string ends with. */
  function TrailingWhitespace(s: string): (n: nat)
    ensures n <= |s|
    ensures forall k :: |s| - n <= k < |s| ==> IsWhitespace(s[k])
    ensures n == |s| || !IsWhitespace(s[|s| - 1 - n])
  {
    if s != [] && IsWhitespace(s[|s| - 1]) then 1 + TrailingWhitespace(s[..|s| - 1]) else 0
  }

  /** `str.strip()`: drop the leading, then the trailing whitespace. */
  function Strip(s: string): (r: string)
    ensures r == [] || (!IsWhitespace(r[0]) && !IsWhitespace(r[|r| - 1]))
    ensures exists i, j :: 0 <= i <= j <= |s| && r == s[i..j]
              && (forall k :: 0 <= k < i ==> IsWhitespace(s[k]))
              && (forall k :: j <= k < |s| ==> IsWhitespace(s[k]))
  {
    var i := LeadingWhitespace(s);
    var t := s[i..];
    var n := TrailingWhitespace(t);
    var j := |s| - n;
    assert t[..|t| - n] == s[i..j];
    assert forall k :: j <= k < |s| ==> IsWhitespace(s[k]) by {
      forall k | j <= k < |s|
        ensures IsWhitespace(s[k])
      {
        assert s[k] == t[k - i];
      }
    }
    t[..|t| - n]
  }

  /** `replace('.', '')`: every dot deleted, every other character kept. */
  function RemoveDots(s: string): (r: string)
    ensures '.' !in r
  {
    if s == [] then []
    else
      assert s == [s[0]] + s[1..];
      (if s[0] == '.' then [] else [s[0]]) + RemoveDots(s[1..])
  }

  /** `replace(' ', '%20')`: every space becomes the three characters `%20`. */
  function EncodeSpaces(s: string): (r: string)
    ensures ' ' !in r
  {
    if s == [] then []
    else
      assert s == [s[0]] + s[1..];
      (if s[0] == ' ' then "%20" else [s[0]]) + EncodeSpaces(s[1..])
  }

  /** Space encoding brings in no character other than those of `%20`. */
  lemma {:induction false} EncodeSpacesAddsOnlyPercentTwoZero(s: string, c: char)
    requires c !in s && c != '%' && c != '2' && c != '0'
    ensures c !in EncodeSpaces(s)
  {
    if s != [] {
      EncodeSpacesAddsOnlyPercentTwoZero(s[1..], c);
      assert s[0] != c;
    }
  }

  /** Deleting dots works character by character, in order. */
  lemma {:induction false} RemoveDotsOfConcat(a: string, b: string)
    ensures RemoveDots(a + b) == RemoveDots(a) + RemoveDots(b)
  {
    if a == [] {
      assert a + b == b;
    } else {
      var ab := a + b;
      assert ab[0] == a[0] && ab[1..] == a[1..] + b;
      var h := if a[0] == '.' then [] else [a[0]];
      var ra, rb, rt := RemoveDots(a[1..]), RemoveDots(b), RemoveDots(a[1..] + b);
      RemoveDotsOfConcat(a[1..], b);
      assert rt == ra + rb;
      assert RemoveDots(ab) == h + rt;
      assert RemoveDots(a) == h + ra;
      assert h + (ra + rb) == (h + ra) + rb;
    }
  }

  /** Encoding spaces works character by character, in order. */
  lemma {:induction false} EncodeSpacesOfConcat(a: string, b: string)
    ensures EncodeSpaces(a + b) == EncodeSpaces(a) + EncodeSpaces(b)
  {
    if a == [] {
      assert a + b == b;
    } else {
      var ab := a + b;
      assert ab[0] == a[0] && ab[1..] == a[1..] + b;
      var h := if a[0] == ' ' then "%20" else [a[0]];
      var ra, rb, rt := EncodeSpaces(a[1..]), EncodeSpaces(b), EncodeSpaces(a[1..] + b);
      EncodeSpacesOfConcat(a[1..], b);
      assert rt == ra + rb;
      assert EncodeSpaces(ab) == h + rt;
      assert EncodeSpaces(a) == h + ra;
      assert h + (ra + rb) == (h + ra) + rb;
    }
  }

  /** The short name as `__init__` stores it: stripped, then dots deleted, then spaces
      encoded. It holds no dot and no space. */
  function NormaliseShortName(shortName: string): (r: string)
    ensures '.' !in r && ' ' !in r
  {
    var dotless := RemoveDots(Strip(shortName));
    EncodeSpacesAddsOnlyPercentTwoZero(dotless, '.');
    EncodeSpaces(dotless)
  }

  /** Stripping comes first, so a space that only becomes outer once a dot is deleted is
      encoded, not trimmed. */
  lemma StripBeforeDotRemoval()
    ensures NormaliseShortName(". a") == "%20a"
  {
    assert Strip(". a") == ". a";
    assert RemoveDots(". a") == " a";
    assert EncodeSpaces(" a") == "%20a";
  }

  /** Dot deletion keeps every other character, as often as it occurs. */
  lemma {:induction false} RemoveDotsKeepsOtherCharacters(s: string)
    ensures multiset(RemoveDots(s)) == multiset(s)['.' := 0]
  {
    if s != [] {
      RemoveDotsKeepsOtherCharacters(s[1..]);
      assert s == [s[0]] + s[1..];
      assert multiset(s) == multiset{s[0]} + multiset(s[1..]);
    }
  }

  /** Space encoding grows the string by two characters per space. */
  lemma {:induction false} EncodeSpacesLength(s: string)
    ensures |EncodeSpaces(s)| == |s| + 2 * multiset(s)[' ']
  {
    if s != [] {
      EncodeSpacesLength(s[1..]);
      assert s == [s[0]] + s[1..];
      assert multiset(s) == multiset{s[0]} + multiset(s[1..]);
    }
  }

  /** A string without dots is left as it is by dot deletion. */
  lemma {:induction false} RemoveDotsWithoutDots(s: string)
    requires '.' !in s
    ensures RemoveDots(s) == s
  {
    if s != [] {
      RemoveDotsWithoutDots(s[1..]);
      assert s == [s[0]] + s[1..];
    }
  }

  /** A string without spaces is left as it is by space encoding. */
  lemma {:induction false} EncodeSpacesWithoutSpaces(s: string)
    requires ' ' !in s
    ensures EncodeSpaces(s) == s
  {
    if s != [] {
      EncodeSpacesWithoutSpaces(s[1..]);
      assert s == [s[0]] + s[1..];
    }
  }

  lemma StripExample()
    ensures Strip(" A B. ") == "A B."
  {
    var s := " A B. ";
    assert LeadingWhitespace(s[1..]) == 0;
    assert LeadingWhitespace(s) == 1;
    var t := s[1..];
    assert t == "A B. ";
    assert TrailingWhitespace(t[..4]) == 0;
    assert TrailingWhitespace(t) == 1;
  }

  lemma RemoveDotsExample()
    ensures RemoveDots("A B.") == "A B"
  {
  }

  lemma EncodeSpacesExample()
    ensures EncodeSpaces("A B") == "A%20B"
  {
  }

  /** A name with outer spaces, an inner space and a dot: the outer spaces are trimmed,
      the dot deleted and the inner space encoded. */
  lemma OuterTrimmedInnerEncoded()
    ensures NormaliseShortName(" A B. ") == "A%20B"
  {
    StripExample();
    RemoveDotsExample();
    EncodeSpacesExample();
  }

  /** What `__init__` stores: the fixed base URL, the project folder as given and the
      normalised short name. */
  datatype ReadmeGenerator = ReadmeGenerator(baseUrl: string, projectFolder: string, shortName: string)

  function NewReadmeGenerator(projectFolder: string, shortName: string): (g: ReadmeGenerator)
    ensures g.baseUrl == BaseUrl && g.projectFolder == projectFolder
    ensures '.' !in g.shortName && ' ' !in g.shortName
    ensures g.shortName == NormaliseShortName(shortName)
  {
    ReadmeGenerator(BaseUrl, projectFolder, NormaliseShortName(shortName))
  }

  /** The five lines `write` puts in the README, in order. */
  function Write(g: ReadmeGenerator): (lines: seq<string>)
    ensures |lines| == 5
  {
    [ "![](" + g.baseUrl + g.projectFolder + "/" + g.shortName + "_price.png)\n",
      "![](" + g.baseUrl + g.projectFolder + "/" + g.shortName + "_hist.png)\n",
      "![](" + g.baseUrl + g.projectFolder + "/" + g.shortName + "_prediction.png)\n",
      "![](" + g.baseUrl + g.projectFolder + "/" + "MSE.png)\n",
      "![](" + g.baseUrl + g.projectFolder + "/" + "loss.png)\n" ]
  }

  /** The images the README shows, in order. */
  function ImageFiles(shortName: string): seq<string>
  {
    [shortName + "_price.png", shortName + "_hist.png", shortName + "_prediction.png",
     "MSE.png", "loss.png"]
  }

  /** The part of a link line every line shares before the file name. */
  function LinkPrefix(g: ReadmeGenerator): string
  {
    "![](" + g.baseUrl + g.projectFolder + "/"
  }

  /** Reads back the file a README line links to, if the line is an image link into the
      project folder. */
  function LinkedFile(g: ReadmeGenerator, line: string): (file: Option<string>)
    ensures file.Some? ==> line == LinkPrefix(g) + file.value + ")\n"
  {
    var p := LinkPrefix(g);
    if |line| >= |p| + 2 && line[..|p|] == p && line[|line| - 2..] == ")\n" then
      assert line == line[..|p|] + line[|p|..|line| - 2] + line[|line| - 2..];
      Some(line[|p|..|line| - 2])
    else None
  }

  lemma LinkedFileOfLink(g: ReadmeGenerator, file: string)
    ensures LinkedFile(g, LinkPrefix(g) + file + ")\n") == Some(file)
  {
    var p := LinkPrefix(g);
    var line := p + file + ")\n";
    assert line[..|p|] == p;
    assert line[|line| - 2..] == ")\n";
    assert line[|p|..|line| - 2] == file;
  }

  /** Each of the five lines is an image link into the project folder, and the files
      they link to are the price, histogram and prediction charts of the short name,
      then MSE.png and loss.png. */
  lemma WriteLinksImages(g: ReadmeGenerator)
    ensures forall i :: 0 <= i < 5 ==> LinkedFile(g, Write(g)[i]) == Some(ImageFiles(g.shortName)[i])
  {
    var lines, files, p := Write(g), ImageFiles(g.shortName), LinkPrefix(g);
    forall i | 0 <= i < 5
      ensures LinkedFile(g, lines[i]) == Some(files[i])
    {
      LinkedFileOfLink(g, files[i]);
      if i < 3 {
        var suffix := ["_price.png", "_hist.png", "_prediction.png"][i];
        assert files[i] == g.shortName + suffix;
        assert lines[i] == p + g.shortName + (suffix + ")\n");
      } else {
        assert lines[i] == p + (files[i] + ")\n");
      }
      assert lines[i] == p + files[i] + ")\n";
    }
  }
}
