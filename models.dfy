/**
 * The todo record's JSON conversion and the user's write-only password.
 *
 * `from_json` copies `name` and then `task` out of a request payload. The two
 * copies happen one after the other, so a payload with `name` but no `task`
 * has already overwritten the name when the missing task is reported.
 */
module Models {
  import opened Wrappers

  /** A JSON scalar as it arrives in a request payload. */
  datatype Json = JNull | JBool(b: bool) | JInt(i: int) | JString(s: string)

  /** The two fields `from_json` writes. */
  datatype TodoFields = TodoFields(name: Json, task: Json)

  /** What `from_json` leaves behind: the fields, and the validation error if one was raised. */
  datatype Applied = Applied(fields: TodoFields, error: Option<string>)

  const MissingPrefix: string := "Invalid todo: missing "

  /** Message of the validation error for a payload without `key`. */
  function MissingKey(key: string): (message: string)
    ensures |message| == |MissingPrefix| + |key|
    ensures message[..|MissingPrefix|] == MissingPrefix && message[|MissingPrefix|..] == key
  {
    MissingPrefix + key
  }

  /** The effect of `from_json(payload)` on a todo whose fields were `before`. */
  function ApplyPayload(before: TodoFields, payload: map<string, Json>): (r: Applied)
    ensures r.error.None? <==> "name" in payload && "task" in payload
    ensures r.error.None? ==> r.fields == TodoFields(payload["name"], payload["task"])
    ensures "name" !in payload ==> r == Applied(before, Some(MissingKey("name")))
    ensures "name" in payload && "task" !in payload ==>
              r == Applied(TodoFields(payload["name"], before.task), Some(MissingKey("task")))
  {
    if "name" !in payload then Applied(before, Some(MissingKey("name")))
    else if "task" !in payload then Applied(before.(name := payload["name"]), Some(MissingKey("task")))
    else Applied(TodoFields(payload["name"], payload["task"]), None)
  }

  /** Only `name` and `task` are looked at: any other keys make no difference. */
  lemma OtherKeysIgnored(before: TodoFields, payload: map<string, Json>, other: map<string, Json>)
    requires "name" !in other && "task" !in other
    ensures ApplyPayload(before, payload + other) == ApplyPayload(before, payload)
  {
  }

  /** An empty payload, or one lacking `name`, is rejected with the fields untouched. */
  lemma PayloadWithoutNameRejected(before: TodoFields, payload: map<string, Json>)
    requires "name" !in payload
    ensures ApplyPayload(before, payload).error == Some("Invalid todo: missing name")
    ensures ApplyPayload(before, payload).fields == before
    ensures ApplyPayload(before, map[]).error == Some("Invalid todo: missing name")
  {
    assert MissingKey("name") == "Invalid todo: missing name";
  }

  /** A stored todo; `None`/`JNull` stand for the unset columns of a fresh `Todo()`. */
  class Todo {
    var id: Option<nat>
    var name: Json
    var task: Json
    var timestamp: Json

    constructor ()
      ensures id == None && name == JNull && task == JNull && timestamp == JNull
    {
      id := None;
      name := JNull;
      task := JNull;
      timestamp := JNull;
    }

    function Fields(): TodoFields
      reads this
    {
      TodoFields(name, task)
    }

    /**
     * The public representation: exactly the keys `url`, `name`, `task` and
     * `timestamp`. `urlFor` stands for the route's URL builder.
     */
    function ToJson(urlFor: Option<nat> -> string): (r: map<string, Json>)
      reads this
      ensures r.Keys == {"url", "name", "task", "timestamp"}
      ensures r["url"] == JString(urlFor(id)) && r["timestamp"] == timestamp
      ensures TodoFields(r["name"], r["task"]) == Fields()
    {
      map["url" := JString(urlFor(id)), "name" := name, "task" := task, "timestamp" := timestamp]
    }

    /**
     * Copies `name`, then `task`, from the payload; a missing key raises the
     * validation error at that point, with the earlier copy already done.
     * On success the todo itself is returned.
     */
    method FromJson(payload: map<string, Json>) returns (r: Result<Todo>)
      modifies this`name, this`task
      ensures Applied(Fields(), if r.Success? then None else Some(r.message))
              == ApplyPayload(old(Fields()), payload)
      ensures r.Success? ==> r.value == this
    {
      if "name" !in payload {
        return Failure(MissingKey("name"));
      }
      name := payload["name"];
      if "task" !in payload {
        return Failure(MissingKey("task"));
      }
      task := payload["task"];
      return Success(this);
    }
  }

  /** Feeding a todo's own representation back in restores its fields, whatever they were. */
  lemma ToJsonFromJsonRoundTrip(t: Todo, urlFor: Option<nat> -> string, before: TodoFields)
    ensures ApplyPayload(before, t.ToJson(urlFor)) == Applied(t.Fields(), None)
  {
  }

  /** A user account; only the hash of the password is ever stored. */
  class User {
    var id: Option<nat>
    var username: string
    var passwordHash: Option<string>

    constructor (username: string)
      ensures id == None && this.username == username && passwordHash == None
    {
      id := None;
      this.username := username;
      passwordHash := None;
    }

    /** Reading `password` always raises. */
    method Password() returns (r: Result<string>)
      ensures r == Failure("password is not a readable attribute")
    {
      r := Failure("password is not a readable attribute");
    }

    /**
     * Setting `password` stores only its salted hash. `hash` stands for the
     * password-hashing routine and `salt` for the random salt it draws.
     */
    method SetPassword(password: string, hash: (string, string) -> string, salt: string)
      modifies this`passwordHash
      ensures passwordHash == Some(hash(salt, password))
      ensures id == old(id) && username == old(username)
    {
      passwordHash := Some(hash(salt, password));
    }
  }
}
