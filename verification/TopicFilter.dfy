/** Matching of MQTT topics against subscription filters (section 4.7.1 of MQTT 3.1.1). */
module TopicFilter {

  /** The levels of a topic or filter: Python's `split("/")`, which yields at least one level. */
  function Split(s: string): (levels: seq<string>)
    ensures levels != []
  {
    if s == "" then [""]
    else
      var rest := Split(s[1..]);
      if s[0] == '/' then [""] + rest else [[s[0]] + rest[0]] + rest[1..]
  }

  function Join(levels: seq<string>): string {
    if levels == [] then "" else if |levels| == 1 then levels[0] else levels[0] + "/" + Join(levels[1..])
  }

  /** Splitting loses nothing, and no level holds a separator. */
  lemma {:induction false} SplitJoin(s: string)
    ensures Join(Split(s)) == s
    ensures forall i :: 0 <= i < |Split(s)| ==> '/' !in Split(s)[i]
  {
    if s != "" {
      SplitJoin(s[1..]);
      var rest := Split(s[1..]);
      var levels := Split(s);
      if s[0] == '/' {
        assert levels[1..] == rest && Join(levels) == "" + "/" + Join(rest);
      } else if |rest| > 1 {
        assert levels[1..] == rest[1..];
        assert Join(levels) == [s[0]] + rest[0] + "/" + Join(rest[1..]);
      }
      assert s == [s[0]] + s[1..];
    }
  }

  predicate Fits(level: string, name: string) {
    level == "+" || level == name
  }

  /** Level by level: `+` stands for one level, `#` for any number of them, none included. */
  predicate Matches(filter: seq<string>, topic: seq<string>) {
    if filter == [] then topic == []
    else if filter[0] == "#" then true
    else topic != [] && Fits(filter[0], topic[0]) && Matches(filter[1..], topic[1..])
  }

  method TopicMatches(pattern: string, topic: string) returns (r: bool)
    ensures r == Matches(Split(pattern), Split(topic))
  {
    if pattern == "#" {
      return true;
    }
    var patternParts := Split(pattern);
    var topicParts := Split(topic);
    var i := 0;
    while i < |patternParts| && i < |topicParts|
      invariant i <= |patternParts| && i <= |topicParts|
      invariant Matches(patternParts, topicParts) == Matches(patternParts[i..], topicParts[i..])
    {
      if patternParts[i] == "#" {
        return true;
      }
      if patternParts[i] != "+" && patternParts[i] != topicParts[i] {
        return false;
      }
      i := i + 1;
    }
    if i < |patternParts| && patternParts[i] == "#" {
      return true;
    }
    return |patternParts| == |topicParts|;
  }

  /** The number of levels before the first `#`. */
  function Fixed(filter: seq<string>): (k: nat)
    ensures k <= |filter|
    ensures k < |filter| ==> filter[k] == "#"
    ensures forall i :: 0 <= i < k ==> filter[i] != "#"
  {
    if filter == [] || filter[0] == "#" then 0 else 1 + Fixed(filter[1..])
  }

  /** A topic matches exactly when it has the fixed levels, each fitting, and nothing more unless `#` follows. */
  lemma {:induction false} MatchesIff(filter: seq<string>, topic: seq<string>)
    ensures Matches(filter, topic) <==>
            && Fixed(filter) <= |topic|
            && (Fixed(filter) == |filter| ==> |topic| == |filter|)
            && forall i :: 0 <= i < Fixed(filter) ==> filter[i] == "+" || filter[i] == topic[i]
  {
    if filter != [] && filter[0] != "#" && topic != [] {
      var f, t := filter[1..], topic[1..];
      MatchesIff(f, t);
      assert forall i :: 0 < i <= |f| ==> filter[i] == f[i - 1];
      assert forall i :: 0 < i <= |t| ==> topic[i] == t[i - 1];
      if Fits(filter[0], topic[0]) && Fixed(f) <= |t| {
        assert (forall i :: 0 <= i < Fixed(f) ==> Fits(f[i], t[i])) <==>
               (forall i :: 0 <= i < Fixed(filter) ==> Fits(filter[i], topic[i])) by {
          if forall i :: 0 <= i < Fixed(filter) ==> Fits(filter[i], topic[i]) {
            forall i | 0 <= i < Fixed(f)
              ensures Fits(f[i], t[i])
            {
              assert Fits(filter[i + 1], topic[i + 1]);
            }
          }
        }
      }
    }
  }

  /** A trailing `#` takes in the level itself and everything below it. */
  lemma {:induction false} HashTakesSubtree(filter: seq<string>, topic: seq<string>)
    requires "#" !in filter
    ensures Matches(filter + ["#"], topic) <==> |filter| <= |topic| && Matches(filter, topic[..|filter|])
  {
    if filter != [] {
      assert (filter + ["#"])[1..] == filter[1..] + ["#"];
      if topic != [] {
        HashTakesSubtree(filter[1..], topic[1..]);
        if |filter| <= |topic| {
          assert topic[..|filter|][1..] == topic[1..][..|filter| - 1];
        }
      }
    }
  }
}
