/**
 * The pure pieces of the socket server (server.js): the room key derived from a
 * task type and a team id, the `juicer` random pick with its random draw passed
 * in, and the constants of the synthetic event generator.
 */
module Rooms {
  import opened Text

  /**
   * The room key `${taskType} ${teamId}`.toUpperCase(). It is the upper-cased task type,
   * one space and the upper-cased team id; nothing is trimmed.
   */
  function RoomKey(taskType: string, teamId: string): (key: string)
    ensures key == Upper(taskType) + " " + Upper(teamId)
    ensures |key| == |taskType| + 1 + |teamId|
    ensures IsUpperCase(key)
  {
    UpperAppend(taskType, " " + teamId);
    UpperAppend(" ", teamId);
    UpperIsUpperCase(taskType + " " + teamId);
    Upper(taskType + " " + teamId)
  }

  /** Every key has a space right after the task type. */
  lemma RoomKeyHasSpace(taskType: string, teamId: string)
    ensures RoomKey(taskType, teamId)[|taskType|] == ' '
    ensures ' ' in RoomKey(taskType, teamId)
  {
  }

  /** Keys ignore the case of both parts. */
  lemma RoomKeyNormalises(taskType: string, teamId: string)
    ensures RoomKey(taskType, teamId) == RoomKey(Upper(taskType), Upper(teamId))
    ensures Upper(RoomKey(taskType, teamId)) == RoomKey(taskType, teamId)
  {
    UpperIdempotent(taskType);
    UpperIdempotent(teamId);
    UpperOfUpperCase(RoomKey(taskType, teamId));
  }

  /** Two requests whose parts agree up to case reach the same room. */
  lemma RoomKeyCaseInsensitive(a: string, b: string, a': string, b': string)
    requires Upper(a) == Upper(a') && Upper(b) == Upper(b')
    ensures RoomKey(a, b) == RoomKey(a', b')
  {
  }

  /**
   * When neither task type contains a space, two keys are equal exactly when both
   * parts agree up to case.
   */
  lemma RoomKeyInjective(a: string, b: string, a': string, b': string)
    requires ' ' !in a && ' ' !in a'
    ensures RoomKey(a, b) == RoomKey(a', b') <==> Upper(a) == Upper(a') && Upper(b) == Upper(b')
  {
    var k, k' := RoomKey(a, b), RoomKey(a', b');
    if k == k' {
      if |a| < |a'| {
        assert a'[|a|] in a';
        assert k[|a|] == ' ';
        assert k'[|a|] == Upper(a')[|a|];
        UpperKeepsSpaces(a', |a|);
        assert false;
      } else if |a'| < |a| {
        assert a[|a'|] in a;
        assert k'[|a'|] == ' ';
        assert k[|a'|] == Upper(a)[|a'|];
        UpperKeepsSpaces(a, |a'|);
        assert false;
      }
      assert Upper(a) == k[..|a|] == k'[..|a'|] == Upper(a');
      assert Upper(b) == k[|a| + 1..] == k'[|a'| + 1..] == Upper(b');
    }
  }

  /** A task type with a space inside can reach the room of another pair. */
  lemma RoomKeyAliasesAcrossTheSpace()
    ensures RoomKey("in progress", "team1") == RoomKey("in", "progress team1")
    ensures "in progress" != "in"
  {
    assert "in progress" + " " + "team1" == "in" + " " + "progress team1";
  }

  /** Leading or trailing blanks are part of the key. */
  lemma RoomKeyDoesNotTrim(taskType: string, teamId: string)
    ensures RoomKey(" " + taskType, teamId) != RoomKey(taskType, teamId)
    ensures RoomKey(taskType, teamId + " ") != RoomKey(taskType, teamId)
  {
  }

  /**
   * `Math.floor(Math.random() * length)` with the draw written as the fraction
   * `num / den` in [0, 1).
   */
  function RandomIndex(length: nat, num: nat, den: nat): (i: nat)
    requires num < den
    ensures length > 0 ==> i < length
    ensures length == 0 ==> i == 0
  {
    MulBelow(num, den, length);
    (num * length) / den
  }

  lemma MulBelow(num: nat, den: nat, length: nat)
    requires num < den
    ensures num * length <= den * length
    ensures length > 0 ==> (num * length) / den < length
  {
    if length > 0 {
      assert num * length < den * length;
    }
  }

  /** `juicer(choices)`, with the index its random draw produced passed in. */
  function Juicer<T>(choices: seq<T>, index: nat): (choice: T)
    requires index < |choices|
    ensures choice in choices
  {
    choices[index]
  }

  /** A draw in [0, 1) always picks one of the choices, for a non-empty choice list. */
  lemma JuicerOfDraw<T>(choices: seq<T>, num: nat, den: nat)
    requires num < den && |choices| > 0
    ensures RandomIndex(|choices|, num, den) < |choices|
    ensures Juicer(choices, RandomIndex(|choices|, num, den)) in choices
  {
  }

  /** The task-status categories the generator draws from. */
  const Categories: seq<string> := ["COMPLETED", "IN PROGRESS", "PENDING", "POSTPONED", "CANCELLED"]

  /** The `type` values a generator payload can carry. */
  const CategoryNames: set<string> := {"completed", "in progress", "pending", "postponed", "cancelled"}

  /** The team id hard-coded in the generator. */
  const GeneratorTeamId: string := "l5wu7opeq4h843e19g"

  /** The generator's boolean choices, in source order. */
  const Flags: seq<bool> := [true, false]

  /** The room a tick with category index `c` publishes to. */
  function TickRoom(c: nat): (key: string)
    requires c < |Categories|
    ensures key == Categories[c] + " L5WU7OPEQ4H843E19G"
  {
    var tt := Juicer(Categories, c);
    CategoryIsUpperCase(c);
    UpperOfUpperCase(tt);
    GeneratorTeamIdUpper();
    RoomKey(tt, GeneratorTeamId)
  }

  lemma CategoryIsUpperCase(c: nat)
    requires c < |Categories|
    ensures IsUpperCase(Categories[c])
  {
    var s := Categories[c];
    if c == 0 {
      assert s == "COMPLETED";
    } else if c == 1 {
      assert s == "IN PROGRESS";
    } else if c == 2 {
      assert s == "PENDING";
    } else if c == 3 {
      assert s == "POSTPONED";
    } else {
      assert s == "CANCELLED";
    }
  }

  lemma GeneratorTeamIdUpper()
    ensures Upper(GeneratorTeamId) == "L5WU7OPEQ4H843E19G"
  {
  }

  /** The payload `type` of a tick with category index `c`: a lowercase category name. */
  function TickType(c: nat): (t: string)
    requires c < |Categories|
    ensures t in CategoryNames
    ensures Upper(t) == Categories[c]
  {
    var tt := Juicer(Categories, c);
    LowerCategory(c);
    Lower(tt)
  }

  /** Lower-casing a category gives its payload name, and upper-casing that name gives the category back. */
  lemma LowerCategory(c: nat)
    requires c < |Categories|
    ensures Lower(Categories[c]) in CategoryNames
    ensures Upper(Lower(Categories[c])) == Categories[c]
  {
    if c == 0 {
      assert Lower("COMPLETED") == "completed";
    } else if c == 1 {
      assert Lower("IN PROGRESS") == "in progress";
    } else if c == 2 {
      assert Lower("PENDING") == "pending";
    } else if c == 3 {
      assert Lower("POSTPONED") == "postponed";
    } else {
      assert Lower("CANCELLED") == "cancelled";
    }
  }
}
