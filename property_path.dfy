// Unity serialized-property paths and their tokens
// (UnitySkills/AgentCommands/Utils/Serialization/PropertyPathToken.cs and
// PropertyPathParser.cs; SerializedObjectHelper.cs carries an identical copy
// of the parser). A path such as "items.Array.data[2].name" is split on '.',
// and the "Array", "size" and "data[i]" segments fold into the token before.
module PropertyPath {
  import opened Text

  datatype TokenKind = Field | ArraySize | ArrayIndex

  /** The PathToken struct: its kind, field name and array index (-1 when unused). */
  datatype PathToken = PathToken(kind: TokenKind, fieldName: string, arrayIndex: int)

  function CreateField(fieldName: string): (t: PathToken)
    ensures t.kind == Field && t.fieldName == fieldName && t.arrayIndex == -1
  {
    PathToken(Field, fieldName, -1)
  }

  function CreateArraySize(fieldName: string): (t: PathToken)
    ensures t.kind == ArraySize && t.fieldName == fieldName && t.arrayIndex == -1
  {
    PathToken(ArraySize, fieldName, -1)
  }

  function CreateArrayIndex(fieldName: string, index: int): (t: PathToken)
    ensures t.kind == ArrayIndex && t.fieldName == fieldName && t.arrayIndex == index
  {
    PathToken(ArrayIndex, fieldName, index)
  }

  /** ToString: "Field(n)", "ArraySize(n)" or "ArrayIndex(n[i])". */
  function TokenToString(t: PathToken): (s: string)
    ensures t.kind == Field ==> StartsWith(s, "Field(") && s[|s| - 1] == ')'
    ensures t.kind == ArraySize ==> StartsWith(s, "ArraySize(") && s[|s| - 1] == ')'
    ensures t.kind == ArrayIndex ==> StartsWith(s, "ArrayIndex(") && s[|s| - 2..] == "])"
  {
    match t.kind
    case Field => "Field(" + t.fieldName + ")"
    case ArraySize => "ArraySize(" + t.fieldName + ")"
    case ArrayIndex => "ArrayIndex(" + t.fieldName + "[" + IntToString(t.arrayIndex) + "])"
  }

  /** The rendering tells the kind of a token apart. */
  lemma ToStringShowsKind(a: PathToken, b: PathToken)
    requires TokenToString(a) == TokenToString(b)
    ensures a.kind == b.kind
  {
    var sa, sb := TokenToString(a), TokenToString(b);
    assert sa[0] == sb[0] && sa[5] == sb[5];
  }

  /** Substring(start, length) throws when the length is negative: the parser's only failure. */
  datatype ParseResult = Tokens(tokens: seq<PathToken>) | SubstringOutOfRange

  /** What one non-empty segment does to the token list. */
  function ParseSegment(tokens: seq<PathToken>, segment: string): (r: ParseResult)
    ensures r.Tokens? ==> |tokens| <= |r.tokens| <= |tokens| + 1
    ensures r.Tokens? ==> r.tokens[..|tokens| - (if |tokens| > 0 then 1 else 0)] == tokens[..|tokens| - (if |tokens| > 0 then 1 else 0)]
  {
    var last := |tokens| - 1;
    if segment == "" then Tokens(tokens)
    else if segment == "size" then
      if |tokens| > 0 && tokens[last].kind == Field
      then Tokens(tokens[last := CreateArraySize(tokens[last].fieldName)])
      else Tokens(tokens)
    else if StartsWith(segment, "data[") then
      if |tokens| > 0 && tokens[last].kind == Field then
        if |segment| - 6 < 0 then SubstringOutOfRange
        else
          var index := TryParseInt(segment[5..|segment| - 1]);
          if index.Some? then Tokens(tokens[last := CreateArrayIndex(tokens[last].fieldName, index.value)])
          else Tokens(tokens)
      else Tokens(tokens)
    else if segment == "Array" then Tokens(tokens)
    else
      var bracket := IndexOf(segment, '[');
      if bracket > 0 then
        if |segment| - bracket - 2 < 0 then SubstringOutOfRange
        else
          var index := TryParseInt(segment[bracket + 1..|segment| - 1]);
          if index.Some? then Tokens(tokens + [CreateArrayIndex(segment[..bracket], index.value)])
          else Tokens(tokens + [CreateField(segment)])
      else Tokens(tokens + [CreateField(segment)])
  }

  /** Folding the segments from left to right. */
  function ParseSegments(tokens: seq<PathToken>, segments: seq<string>): (r: ParseResult)
    decreases |segments|
  {
    if segments == [] then Tokens(tokens)
    else match ParseSegment(tokens, segments[0])
      case SubstringOutOfRange => SubstringOutOfRange
      case Tokens(t) => ParseSegments(t, segments[1..])
  }

  function ParseSpec(path: string): ParseResult
  {
    if path == "" then Tokens([]) else ParseSegments([], Split(path, '.'))
  }

  /** ParsePropertyPath: the foreach loop over the '.'-separated segments, rewriting the last token. */
  method ParsePropertyPath(path: string) returns (r: ParseResult)
    ensures r == ParseSpec(path)
    ensures path == "" ==> r == Tokens([])
    ensures r.Tokens? ==> |r.tokens| <= |Split(path, '.')|
  {
    if path == "" {
      return Tokens([]);
    }
    var segments := Split(path, '.');
    var tokens: seq<PathToken> := [];
    var i := 0;
    while i < |segments|
      invariant 0 <= i <= |segments|
      invariant |tokens| <= i
      invariant ParseSegments(tokens, segments[i..]) == ParseSpec(path)
    {
      var segment := segments[i];
      assert segments[i..][1..] == segments[i + 1..];
      var last := |tokens| - 1;
      if segment == "" {
      } else if segment == "size" {
        if |tokens| > 0 && tokens[last].kind == Field {
          tokens := tokens[last := CreateArraySize(tokens[last].fieldName)];
        }
      } else if StartsWith(segment, "data[") {
        if |tokens| > 0 && tokens[last].kind == Field {
          if |segment| - 6 < 0 {
            return SubstringOutOfRange;
          }
          var index := TryParseInt(segment[5..|segment| - 1]);
          if index.Some? {
            tokens := tokens[last := CreateArrayIndex(tokens[last].fieldName, index.value)];
          }
        }
      } else if segment == "Array" {
      } else {
        var bracket := IndexOf(segment, '[');
        var added := false;
        if bracket > 0 {
          if |segment| - bracket - 2 < 0 {
            return SubstringOutOfRange;
          }
          var index := TryParseInt(segment[bracket + 1..|segment| - 1]);
          if index.Some? {
            tokens := tokens + [CreateArrayIndex(segment[..bracket], index.value)];
            added := true;
          }
        }
        if !added {
          tokens := tokens + [CreateField(segment)];
        }
      }
      i := i + 1;
    }
    assert segments[i..] == [];
    r := Tokens(tokens);
    TokenCountBound(segments);
  }

  /** Each segment adds at most one token, so the token count never exceeds the segment count. */
  lemma {:induction false} SegmentsBound(tokens: seq<PathToken>, segments: seq<string>)
    ensures ParseSegments(tokens, segments).Tokens? ==> |ParseSegments(tokens, segments).tokens| <= |tokens| + |segments|
    decreases |segments|
  {
    if segments != [] {
      match ParseSegment(tokens, segments[0])
      case SubstringOutOfRange =>
      case Tokens(t) => SegmentsBound(t, segments[1..]);
    }
  }

  lemma TokenCountBound(segments: seq<string>)
    ensures ParseSegments([], segments).Tokens? ==> |ParseSegments([], segments).tokens| <= |segments|
  {
    SegmentsBound([], segments);
  }

  /** A plain field name: no separator, no bracket and none of the reserved segment forms. */
  predicate PlainName(f: string)
  {
    f != "" && '.' !in f && '[' !in f && f != "size" && f != "Array" && !StartsWith(f, "data[")
  }

  lemma FieldSegment(tokens: seq<PathToken>, f: string)
    requires PlainName(f)
    ensures ParseSegment(tokens, f) == Tokens(tokens + [CreateField(f)])
  {
    assert IndexOf(f, '[') == -1;
  }

  lemma {:induction false} PlainFieldPath(f: string)
    requires PlainName(f)
    ensures ParseSpec(f) == Tokens([CreateField(f)])
  {
    SplitNoSeparator(f, '.');
    FieldSegment([], f);
    SegmentsCons([], f, []);
    assert [f] + [] == [f];
    assert [] + [CreateField(f)] == [CreateField(f)];
  }

  lemma SplitThree(a: string, b: string, c: string)
    requires '.' !in a && '.' !in b && '.' !in c
    ensures Split(a + "." + b + "." + c, '.') == [a, b, c]
  {
    assert a + "." + b + "." + c == a + ['.'] + (b + ['.'] + c);
    SplitFirst(a, b + ['.'] + c, '.');
    SplitFirst(b, c, '.');
    SplitNoSeparator(c, '.');
  }

  /** A field followed by "Array" and a last segment: the last segment decides the token. */
  lemma FieldArrayThen(f: string, last: string)
    requires PlainName(f) && '.' !in last
    ensures ParseSpec(f + "." + "Array" + "." + last) == ParseSegments([CreateField(f)], [last])
  {
    SplitThree(f, "Array", last);
    FieldSegment([], f);
    assert [f, "Array", last] == [f] + ["Array", last];
    SegmentsCons([], f, ["Array", last]);
    assert [] + [CreateField(f)] == [CreateField(f)];
    SkippedSegments([CreateField(f)], "Array");
    assert ["Array", last] == ["Array"] + [last];
    SegmentsCons([CreateField(f)], "Array", [last]);
  }

  /** "f.Array.size" is one ArraySize token. */
  lemma {:induction false} ArraySizePath(f: string)
    requires PlainName(f)
    ensures ParseSpec(f + ".Array.size") == Tokens([CreateArraySize(f)])
  {
    assert f + ".Array.size" == f + "." + "Array" + "." + "size";
    FieldArrayThen(f, "size");
    assert [CreateField(f)][0 := CreateArraySize(f)] == [CreateArraySize(f)];
    SegmentsCons([CreateField(f)], "size", []);
    assert ["size"] + [] == ["size"];
  }

  /** "f.Array.data[n]" is one ArrayIndex token. */
  lemma {:induction false} ArrayDataPath(f: string, n: nat)
    requires PlainName(f) && n <= Int32Max
    ensures ParseSpec(f + ".Array.data[" + NatToString(n) + "]") == Tokens([CreateArrayIndex(f, n)])
  {
    var digits := NatToString(n);
    var last := "data[" + digits + "]";
    assert '.' !in last by {
      assert forall k :: 0 <= k < |digits| ==> last[5 + k] == digits[k];
    }
    assert f + ".Array.data[" + digits + "]" == f + "." + "Array" + "." + last;
    FieldArrayThen(f, last);
    assert last[..5] == "data[" && last[5..|last| - 1] == digits;
    TryParseNatToString(n);
    assert [CreateField(f)][0 := CreateArrayIndex(f, n)] == [CreateArrayIndex(f, n)];
    SegmentsCons([CreateField(f)], last, []);
    assert [last] + [] == [last];
  }

  lemma BracketSegment(f: string, digits: string)
    requires PlainName(f) && f != "data" && AllDigits(digits)
    ensures var seg := f + "[" + digits + "]";
      && '.' !in seg && seg != "" && seg != "size" && seg != "Array" && !StartsWith(seg, "data[")
      && IndexOf(seg, '[') == |f| && seg[|f| + 1..|seg| - 1] == digits && seg[..|f|] == f
  {
    var seg := f + "[" + digits + "]";
    assert forall k :: 0 <= k < |digits| ==> seg[|f| + 1 + k] == digits[k];
    assert forall k :: 0 <= k < |f| ==> seg[k] == f[k];
    assert seg[|f|] == '[';
    assert seg[|seg| - 1] == ']';
    assert "data["[0] == 'd' && "data["[1] == 'a' && "data["[2] == 't' && "data["[3] == 'a';
    if |f| >= 5 {
      assert seg[..5] == f[..5];
    } else {
      assert seg[..|f|] == f;
    }
  }

  /** A segment "name[i]" with a parsable index appends an ArrayIndex token. */
  lemma NumericBracket(tokens: seq<PathToken>, segment: string)
    requires segment != "" && segment != "size" && segment != "Array" && !StartsWith(segment, "data[")
    requires IndexOf(segment, '[') > 0 && |segment| - IndexOf(segment, '[') - 2 >= 0
    requires TryParseInt(segment[IndexOf(segment, '[') + 1..|segment| - 1]).Some?
    ensures ParseSegment(tokens, segment)
         == Tokens(tokens + [CreateArrayIndex(segment[..IndexOf(segment, '[')],
                                              TryParseInt(segment[IndexOf(segment, '[') + 1..|segment| - 1]).value)])
  {
  }

  /** A dot-free segment "name[i]" with a parsable index is a whole path of one ArrayIndex token. */
  lemma SingleBracket(seg: string, f: string, n: int)
    requires '.' !in seg && seg != "" && seg != "size" && seg != "Array" && !StartsWith(seg, "data[")
    requires |f| > 0 && IndexOf(seg, '[') == |f| && |seg| >= |f| + 2 && seg[..|f|] == f
    requires TryParseInt(seg[|f| + 1..|seg| - 1]) == Wrappers.Some(n)
    ensures ParseSpec(seg) == Tokens([CreateArrayIndex(f, n)])
  {
    SplitNoSeparator(seg, '.');
    var t := CreateArrayIndex(f, n);
    NumericBracket([], seg);
    assert [] + [t] == [t];
    SegmentsCons([], seg, []);
    assert [seg] + [] == [seg];
  }

  /** "f[n]" is one ArrayIndex token ("data[n]" alone is not: it reads as an array element with no field). */
  lemma {:induction false} BracketPath(f: string, n: nat)
    requires PlainName(f) && f != "data" && n <= Int32Max
    ensures ParseSpec(f + "[" + NatToString(n) + "]") == Tokens([CreateArrayIndex(f, n)])
  {
    var digits := NatToString(n);
    NatToStringRoundTrip(n);
    BracketSegment(f, digits);
    TryParseNatToString(n);
    SingleBracket(f + "[" + digits + "]", f, n);
  }

  /** A bracket whose contents are not a number falls back to a Field for the whole segment. */
  lemma NonNumericBracket(tokens: seq<PathToken>, segment: string)
    requires segment != "size" && segment != "Array" && !StartsWith(segment, "data[")
    requires IndexOf(segment, '[') > 0 && |segment| - IndexOf(segment, '[') - 2 >= 0
    requires TryParseInt(segment[IndexOf(segment, '[') + 1..|segment| - 1]).None?
    ensures ParseSegment(tokens, segment) == Tokens(tokens + [CreateField(segment)])
  {
  }

  /** Empty segments, "Array", and "size" or "data[..]" with no Field before them change nothing. */
  lemma SkippedSegments(tokens: seq<PathToken>, segment: string)
    requires segment == "" || segment == "Array"
          || ((segment == "size" || StartsWith(segment, "data[")) && (tokens == [] || tokens[|tokens| - 1].kind != Field))
    ensures ParseSegment(tokens, segment) == Tokens(tokens)
  {
    ArrayIsNotData();
  }

  lemma ArrayIsNotData()
    ensures !StartsWith("Array", "data[")
  {
    assert "Array"[0] != "data["[0];
  }

  /** Unrolls the fold by one segment. */
  lemma SegmentsCons(tokens: seq<PathToken>, segment: string, rest: seq<string>)
    ensures ParseSegments(tokens, [segment] + rest)
         == match ParseSegment(tokens, segment)
            case SubstringOutOfRange => SubstringOutOfRange
            case Tokens(t) => ParseSegments(t, rest)
  {
    assert ([segment] + rest)[0] == segment && ([segment] + rest)[1..] == rest;
  }
}
