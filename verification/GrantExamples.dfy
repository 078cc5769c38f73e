/** The characters, the printed requests and the sizes that the models of grant.c and of the multipart uploads rest on. */
module GrantExamples {
  import opened GrantMessages
  import Multipart

  // ----- Characters in the C locale -----

  const UPPER_CASE: string := "ABCDEFGHIJKLMNOPQRSTUVWXYZ"
  const LOWER_CASE: string := "abcdefghijklmnopqrstuvwxyz"
  const DIGITS: string := "0123456789"
  const PUNCTUATION: string := "!\"#$%&'()*+,-./"
  const MORE_PUNCTUATION: string := ":;<=>?@"
  const BRACKETS: string := "[\\]^_`"
  const BRACES: string := "{|}~"

  /** The string has the characters from first to last in order. */
  predicate Ranges(s: string, first: char, last: char) {
    |s| == last as int - first as int + 1 && forall i | 0 <= i < |s| :: s[i] as int == first as int + i
  }

  lemma UpperCase() ensures Ranges(UPPER_CASE, 'A', 'Z') {}

  lemma LowerCase() ensures Ranges(LOWER_CASE, 'a', 'z') {}

  lemma Digits() ensures Ranges(DIGITS, '0', '9') {}

  lemma Punctuation()
    ensures Ranges(PUNCTUATION, '!', '/') && Ranges(MORE_PUNCTUATION, ':', '@')
    ensures Ranges(BRACKETS, '[', '`') && Ranges(BRACES, '{', '~')
  {
  }

  lemma InRange(s: string, first: char, last: char, c: char)
    requires Ranges(s, first, last)
    ensures c in s <==> first <= c <= last
  {
    if first <= c <= last { assert s[c as int - first as int] == c; }
  }

  /** isdigit, isalnum, isspace and ispunct. */
  lemma CharacterClasses(c: char)
    ensures IsDigit(c) <==> c in DIGITS
    ensures IsDigit(c) ==> DigitValue(c) < |DIGITS| && DIGITS[DigitValue(c)] == c
    ensures IsAlnum(c) <==> c in DIGITS || c in UPPER_CASE || c in LOWER_CASE
    ensures IsSpace(c) <==> c in " \t\n\U{0B}\U{0C}\r"
    ensures IsPunct(c) <==> c in PUNCTUATION || c in MORE_PUNCTUATION || c in BRACKETS || c in BRACES
  {
    hide UPPER_CASE, LOWER_CASE, DIGITS, PUNCTUATION, MORE_PUNCTUATION, BRACKETS, BRACES, Ranges;
    UpperCase();
    LowerCase();
    Digits();
    Punctuation();
    InRange(UPPER_CASE, 'A', 'Z', c);
    InRange(LOWER_CASE, 'a', 'z', c);
    InRange(DIGITS, '0', '9', c);
    InRange(PUNCTUATION, '!', '/', c);
    InRange(MORE_PUNCTUATION, ':', '@', c);
    InRange(BRACKETS, '[', '`', c);
    InRange(BRACES, '{', '~', c);
  }

  /** The three first words, in upper or lower case. */
  lemma FirstWords(r: string)
    ensures StartsWith(r, "CHOWN ") <==>
            |r| >= 6 && r[0] in "Cc" && r[1] in "Hh" && r[2] in "Oo" && r[3] in "Ww" && r[4] in "Nn" && r[5] == ' '
    ensures StartsWith(r, "CHUNK ") <==>
            |r| >= 6 && r[0] in "Cc" && r[1] in "Hh" && r[2] in "Uu" && r[3] in "Nn" && r[4] in "Kk" && r[5] == ' '
    ensures StartsWith(r, "PUBLISH ") <==>
            && |r| >= 8 && r[0] in "Pp" && r[1] in "Uu" && r[2] in "Bb" && r[3] in "Ll"
            && r[4] in "Ii" && r[5] in "Ss" && r[6] in "Hh" && r[7] == ' '
  {
    SixLetters(r, "CHOWN ");
    SixLetters(r, "CHUNK ");
    EightLetters(r, "PUBLISH ");
    hide StartsWith;
  }

  lemma SixLetters(r: string, word: string)
    requires |word| == 6
    ensures StartsWith(r, word) <==>
            && |r| >= 6
            && ToUpper(r[0]) == ToUpper(word[0]) && ToUpper(r[1]) == ToUpper(word[1]) && ToUpper(r[2]) == ToUpper(word[2])
            && ToUpper(r[3]) == ToUpper(word[3]) && ToUpper(r[4]) == ToUpper(word[4]) && ToUpper(r[5]) == ToUpper(word[5])
  {
    hide ToUpper;
  }

  lemma EightLetters(r: string, word: string)
    requires |word| == 8
    ensures StartsWith(r, word) <==>
            && |r| >= 8
            && ToUpper(r[0]) == ToUpper(word[0]) && ToUpper(r[1]) == ToUpper(word[1]) && ToUpper(r[2]) == ToUpper(word[2])
            && ToUpper(r[3]) == ToUpper(word[3]) && ToUpper(r[4]) == ToUpper(word[4]) && ToUpper(r[5]) == ToUpper(word[5])
            && ToUpper(r[6]) == ToUpper(word[6]) && ToUpper(r[7]) == ToUpper(word[7])
  {
    hide ToUpper;
  }

  /** A number wraps around to the one number of 32 bits that differs from it by a multiple of 2^32. */
  lemma Wraps(n: int)
    ensures -0x8000_0000 <= Wrapped(n) < 0x8000_0000 && (n - Wrapped(n)) % 0x1_0000_0000 == 0
  {
  }

  // ----- Requests -----

  lemma PrintedOwners()
    ensures ChownRequest(1000, 65534, "abcdef/GHIJ01") == "CHOWN 1000:65534:abcdef/GHIJ01"
    ensures ChownRequest(0xffff_ffff, 0, "abcdef") == "CHOWN -1:0:abcdef"
  {
    Numbers();
    hide Decimal;
    assert "CHOWN " + "1000" + ":" + "65534" + ":" + "abcdef/GHIJ01" == "CHOWN 1000:65534:abcdef/GHIJ01";
  }

  lemma PrintedFiles()
    ensures PublishRequest("abcdef", "GHIJ01") == "PUBLISH abcdef:GHIJ01"
    ensures ChunkRequest(10, "abcdef", "GHIJ01") == "CHUNK 10:abcdef:GHIJ01"
  {
    Numbers();
    hide Decimal;
  }

  lemma Numbers()
    ensures Decimal(0) == "0" && Decimal(1) == "1" && Decimal(10) == "10"
    ensures Decimal(1000) == "1000" && Decimal(65534) == "65534"
  {
  }

  lemma ParsedRequests()
    ensures Parsed("CHOWN 1000:65534:abcdef/GHIJ01") == Chown(1000, 65534, "abcdef/GHIJ01")
    ensures Parsed("PUBLISH abcdef:GHIJ01") == Publish("abcdef", "GHIJ01")
    ensures Parsed("CHUNK 10:abcdef:GHIJ01") == Chunk(10, "abcdef", "GHIJ01")
  {
    PrintedOwners();
    PrintedFiles();
    assert IsName("abcdef") && IsName("GHIJ01");
    TwoNames("abcdef", "GHIJ01");
    assert "abcdef" + "/" + "GHIJ01" == "abcdef/GHIJ01";
    ChownAgrees(1000, 65534, "abcdef/GHIJ01");
    PublishAgrees("abcdef", "GHIJ01");
    ChunkAgrees(10, "abcdef", "GHIJ01");
    hide Parsed, ChownRequest, PublishRequest, ChunkRequest, IsName;
  }

  // ----- Parts -----

  /** Chunks of 25 megabytes, at most 10,000. */
  lemma Parts(filesize: nat)
    ensures Multipart.NumberOfMultiparts(filesize) ==
            if filesize > 262144000000 then 10000
            else filesize / 26214400 + (if filesize % 26214400 == 0 then 0 else 1)
    ensures forall part: int :: Multipart.PartSize(part, filesize) ==
              if part == Multipart.NumberOfMultiparts(filesize) then filesize % 26214400 else 26214400
  {
  }
}
