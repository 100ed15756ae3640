/** The text combiner of the inference service: a validated request's fields
    are joined into the single string that the classifier scores. */
module TextCombiner {

  datatype Option<T> = None | Some(value: T)

  /** A prediction request after schema validation: the title is always
      present, the description and the tags may be absent (`None`). */
  datatype Request = Request(title: string, description: Option<string>, tags: Option<string>)

  /** Python truthiness of an optional string: present and non-empty. */
  predicate Truthy(field: Option<string>)
  {
    field.Some? && field.value != ""
  }

  /** What an optional field contributes after the title. */
  function Suffix(field: Option<string>): string
  {
    if Truthy(field) then " " + field.value else ""
  }

  /** Total number of characters in a list of strings. */
  function SumLengths(parts: seq<string>): nat
  {
    if parts == [] then 0 else |parts[0]| + SumLengths(parts[1..])
  }

  /** `" ".join(parts)`: the parts with one space between neighbours. */
  function Join(parts: seq<string>): (r: string)
    ensures parts == [] ==> r == ""
    ensures parts != [] ==> |r| == SumLengths(parts) + |parts| - 1
    ensures parts != [] ==> r[..|parts[0]|] == parts[0]
  {
    if parts == [] then ""
    else if |parts| == 1 then parts[0]
    else parts[0] + " " + Join(parts[1..])
  }

  /** `str.split(" ")`: the maximal space-free pieces between the spaces,
      empty pieces included. */
  function SplitOnSpace(s: string): (r: seq<string>)
    ensures |r| >= 1
    ensures |r| == 1 ==> r[0] == s
  {
    if s == "" then [""]
    else
      var rest := SplitOnSpace(s[1..]);
      if s[0] == ' ' then [""] + rest
      else [[s[0]] + rest[0]] + rest[1..]
  }

  /** The list the source builds before joining: the title, then the
      description and the tags, each only when truthy. */
  function Parts(req: Request): (r: seq<string>)
    ensures 1 <= |r| <= 3 && r[0] == req.title
  {
    [req.title]
    + (if Truthy(req.description) then [req.description.value] else [])
    + (if Truthy(req.tags) then [req.tags.value] else [])
  }

  /** The combined text: the title, followed by " description" when the
      description is truthy and by " tags" when the tags are truthy, in that
      order; a falsy field adds nothing, not even its separator. */
  function CombineText(req: Request): (r: string)
    ensures r == req.title + Suffix(req.description) + Suffix(req.tags)
    ensures |r| == |req.title|
                   + (if Truthy(req.description) then 1 + |req.description.value| else 0)
                   + (if Truthy(req.tags) then 1 + |req.tags.value| else 0)
  {
    JoinParts(req);
    Join(Parts(req))
  }

  /** The join of the parts spelled out field by field. */
  lemma JoinParts(req: Request)
    ensures Join(Parts(req)) == req.title + Suffix(req.description) + Suffix(req.tags)
  {
    var parts := Parts(req);
    JoinCons(parts);
    if |parts| > 1 {
      JoinCons(parts[1..]);
    }
  }

  /** Joining a list of two or more parts puts the first one and a space in
      front of the join of the rest. */
  lemma JoinCons(parts: seq<string>)
    requires parts != []
    ensures Join(parts) == parts[0] + (if |parts| == 1 then "" else " " + Join(parts[1..]))
  {
  }

  /** The combined text is the title exactly when neither optional field is
      truthy. */
  lemma CombineIsTitleIff(req: Request)
    ensures CombineText(req) == req.title <==> !Truthy(req.description) && !Truthy(req.tags)
  {
  }

  /** Placement of the optional fields: a truthy description starts one
      space after the title; truthy tags end the text, one space after what
      precedes them. */
  lemma CombinePlacement(req: Request)
    ensures var r := CombineText(req);
      && r[..|req.title|] == req.title
      && (Truthy(req.description) ==>
            && r[|req.title|] == ' '
            && r[|req.title| + 1 .. |req.title| + 1 + |req.description.value|] == req.description.value)
      && (Truthy(req.tags) ==>
            && r[|r| - |req.tags.value| - 1] == ' '
            && r[|r| - |req.tags.value|..] == req.tags.value)
      && (!Truthy(req.tags) && Truthy(req.description) ==>
            r[|req.title| + 1..] == req.description.value)
  {
  }

  /** The examples the service documents for the combiner. */
  lemma CombineExamples()
    ensures CombineText(Request("Foo", None, None)) == "Foo"
    ensures CombineText(Request("Foo", Some("Bar"), None)) == "Foo Bar"
    ensures CombineText(Request("Foo", None, Some("Tag"))) == "Foo Tag"
    ensures CombineText(Request("Foo", Some(""), Some("Tag"))) == "Foo Tag"
    ensures CombineText(Request("Space shooter", Some("arcade"), Some("action")))
              == "Space shooter arcade action"
  {
  }

  /** Splitting a string on spaces and joining the pieces with spaces gives
      the string back. */
  lemma {:induction false} JoinSplit(s: string)
    ensures Join(SplitOnSpace(s)) == s
    decreases |s|
  {
    if s != "" {
      var rest := SplitOnSpace(s[1..]);
      JoinSplit(s[1..]);
      JoinCons(rest);
      if s[0] == ' ' {
        JoinCons([""] + rest);
        assert ([""] + rest)[1..] == rest;
      } else {
        var r := [[s[0]] + rest[0]] + rest[1..];
        JoinCons(r);
        assert r[1..] == rest[1..];
        assert s == [s[0]] + s[1..];
      }
    }
  }

  /** A space-free string followed by a space splits into that string and
      the split of what follows. */
  lemma {:induction false} SplitAfterWord(word: string, rest: string)
    requires ' ' !in word
    ensures SplitOnSpace(word + " " + rest) == [word] + SplitOnSpace(rest)
    decreases |word|
  {
    var s := word + " " + rest;
    if word == "" {
      assert s == " " + rest && s[1..] == rest;
    } else {
      assert s[1..] == word[1..] + " " + rest;
      assert ' ' !in word[1..] by {
        forall i | 0 <= i < |word[1..]| ensures word[1..][i] != ' ' {
          assert word[1..][i] == word[i + 1];
        }
      }
      SplitAfterWord(word[1..], rest);
      assert s[0] == word[0] && [word[0]] + word[1..] == word;
    }
  }

  /** A space-free string splits into itself alone. */
  lemma {:induction false} SplitWord(word: string)
    requires ' ' !in word
    ensures SplitOnSpace(word) == [word]
    decreases |word|
  {
    if word != "" {
      assert ' ' !in word[1..] by {
        forall i | 0 <= i < |word[1..]| ensures word[1..][i] != ' ' {
          assert word[1..][i] == word[i + 1];
        }
      }
      SplitWord(word[1..]);
      assert [word[0]] + word[1..] == word;
    }
  }

  /** Joining space-free parts and splitting the result on spaces recovers
      the parts. */
  lemma {:induction false} SplitJoin(parts: seq<string>)
    requires parts != []
    requires forall i :: 0 <= i < |parts| ==> ' ' !in parts[i]
    ensures SplitOnSpace(Join(parts)) == parts
    decreases |parts|
  {
    JoinCons(parts);
    if |parts| == 1 {
      SplitWord(parts[0]);
    } else {
      SplitJoin(parts[1..]);
      SplitAfterWord(parts[0], Join(parts[1..]));
      assert [parts[0]] + parts[1..] == parts;
    }
  }

  /** When no field contains a space, the combined text determines the
      fields that went into it: splitting it on spaces gives the title, then
      the truthy description and the truthy tags. */
  lemma CombineSplitsIntoParts(req: Request)
    requires ' ' !in req.title
    requires req.description.Some? ==> ' ' !in req.description.value
    requires req.tags.Some? ==> ' ' !in req.tags.value
    ensures SplitOnSpace(CombineText(req)) == Parts(req)
  {
    var parts := Parts(req);
    assert forall i :: 0 <= i < |parts| ==> ' ' !in parts[i];
    SplitJoin(parts);
  }
}
