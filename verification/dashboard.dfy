/**
 * The dashboard's header and its add/submit flow: the greeting and avatar
 * initial derived from the signed-in email and the hour of the day, and the
 * status a new task is submitted with. The email comes from the session and
 * the hour from the clock; both are parameters.
 */
module Dashboard {
  import opened Wrappers
  import opened Json
  import opened Text

  /** The part of the day an hour falls in, as the header words it. */
  function TimeGreeting(hour: int): (r: string)
    ensures 5 <= hour < 12 ==> r == "Good morning"
    ensures 12 <= hour < 17 ==> r == "Good afternoon"
    ensures 17 <= hour < 21 ==> r == "Good evening"
    ensures !(5 <= hour < 21) ==> r == "Hello"
  {
    if hour >= 5 && hour < 12 then "Good morning"
    else if hour >= 12 && hour < 17 then "Good afternoon"
    else if hour >= 17 && hour < 21 then "Good evening"
    else "Hello"
  }

  /**
   * The display name: the text before the first '@', first character
   * upper-cased and the rest lower-cased; `None` when there is no email or
   * nothing before the '@'.
   */
  function Username(email: Option<string>): (r: Option<string>)
    ensures r.None? <==> email.None? || BeforeFirst(email.value, '@') == []
    ensures r.Some? ==> var local := BeforeFirst(email.value, '@');
                        && |r.value| == |local|
                        && r.value[0] == UpperChar(local[0])
                        && r.value[1..] == Lower(local[1..])
  {
    if email.None? || email.value == [] then None
    else
      var local := BeforeFirst(email.value, '@');
      if local == [] then None
      else Some([UpperChar(local[0])] + Lower(local[1..]))
  }

  datatype Header = Header(greeting: string, initial: string)

  /**
   * The header for a session email and an hour: "Hi, User" and "U" without a
   * usable name or when the name reads "User"; otherwise the time greeting
   * followed by the name, and the name's upper-cased first character.
   */
  function Greet(email: Option<string>, hour: int): (h: Header)
    ensures Username(email).None? ==> h == Header("Hi, User", "U")
    ensures Username(email).Some? ==> h.initial == [UpperChar(Username(email).value[0])]
    ensures Username(email).Some? && Username(email).value != "User" ==>
              h.greeting == TimeGreeting(hour) + ", " + Username(email).value
    ensures Username(email) == Some("User") ==> h.greeting == "Hi, User"
  {
    var name := Username(email).GetOr("User");
    var initial := if Username(email).Some? then [UpperChar(name[0])] else "U";
    Header(if name == "User" then "Hi, User" else TimeGreeting(hour) + ", " + name, initial)
  }

  lemma UpperCharIdempotent(c: char)
    ensures UpperChar(UpperChar(c)) == UpperChar(c)
  {
  }

  /** The initial is the upper-cased first character of the text before the '@'. */
  lemma InitialIsFirstLetter(email: string, hour: int)
    requires BeforeFirst(email, '@') != []
    ensures Greet(Some(email), hour).initial == [UpperChar(email[0])]
  {
    var local := BeforeFirst(email, '@');
    assert local[0] == email[0];
    UpperCharIdempotent(email[0]);
  }

  /** "Hi, User" is shown exactly when there is no name or the name reads "user" in any letter case. */
  lemma PlainGreetingExactlyForUser(email: Option<string>, hour: int)
    ensures Greet(email, hour).greeting == "Hi, User"
            <==> Username(email).None? || Lower(BeforeFirst(email.value, '@')) == "user"
  {
    var h := Greet(email, hour);
    if Username(email).Some? {
      var local := BeforeFirst(email.value, '@');
      var name := Username(email).value;
      if Lower(local) == "user" {
        assert |local| == 4;
        assert name == "User" by {
          assert name[0] == UpperChar(local[0]) && LowerChar(local[0]) == 'u';
          assert name[1..] == Lower(local)[1..];
        }
      } else {
        var t := TimeGreeting(hour);
        assert h.greeting == t + ", " + name;
        assert h.greeting[0] != 'H' || h.greeting[1] != 'i';
      }
    }
  }

  /** The same mailbox greets the same way whatever the letter case it is typed in. */
  lemma GreetingIgnoresCaseAfterFirstLetter(a: string, b: string, hour: int)
    requires BeforeFirst(a, '@') != [] && BeforeFirst(b, '@') != []
    requires Lower(BeforeFirst(a, '@')) == Lower(BeforeFirst(b, '@'))
    ensures Greet(Some(a), hour) == Greet(Some(b), hour)
  {
    var la, lb := BeforeFirst(a, '@'), BeforeFirst(b, '@');
    assert |la| == |lb|;
    assert UpperChar(la[0]) == UpperChar(lb[0]) by {
      assert LowerChar(la[0]) == Lower(la)[0] == Lower(lb)[0] == LowerChar(lb[0]);
    }
    assert Lower(la[1..]) == Lower(la)[1..] == Lower(lb)[1..] == Lower(lb[1..]);
    assert Username(Some(a)) == Username(Some(b));
  }

  /** `handleAdd`: the column's status becomes the default for the new task, todo when the column gave none. */
  function DefaultStatus(statusKey: Value): (r: Value)
    ensures JsTruthy(statusKey) ==> r == statusKey
    ensures !JsTruthy(statusKey) ==> r == Str("todo")
  {
    if JsTruthy(statusKey) then statusKey else Str("todo")
  }

  /**
   * `handleSubmitModal`: the form's fields, with the status replaced by the
   * default status when creating and by the form's own status (possibly
   * missing) when editing.
   */
  function FinalPayload(payload: map<string, Value>, editing: bool, defaultStatus: Value): (r: map<string, Value>)
    ensures r.Keys == payload.Keys + {"status"}
    ensures forall k :: k in payload && k != "status" ==> r[k] == payload[k]
    ensures !editing ==> r["status"] == defaultStatus
    ensures editing ==> r["status"] == Prop(Obj(payload), "status")
  {
    payload["status" := if editing then Prop(Obj(payload), "status") else defaultStatus]
  }

  /** A task created from a column is submitted with that column's status, whatever the form held. */
  lemma CreatedTaskTakesColumnStatus(payload: map<string, Value>, column: string)
    requires column != []
    ensures FinalPayload(payload, false, DefaultStatus(Str(column)))["status"] == Str(column)
  {
  }

  /** Editing keeps the form's status and every other field. */
  lemma EditKeepsFormStatus(payload: map<string, Value>, defaultStatus: Value)
    requires "status" in payload
    ensures FinalPayload(payload, true, defaultStatus) == payload
  {
  }
}
