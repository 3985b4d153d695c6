/** The coach's Create Player form: a record keyed by input name, where the
    overseas select is stored as a boolean and every other input as its text. */
module CreatePlayer {

  /** A value of the form record: the text of an input, or the overseas flag. */
  datatype FieldValue = Text(s: string) | Flag(b: bool)

  const NameKey := "name"
  const RolesKey := "player_roles"
  const RoleSelectKey := "playerRole"
  const OverseasKey := "overseas"
  const TrueText := "true"
  const CreateFailed := "Error creating player. Please try again."

  /** The record the form starts from and returns to after a create. */
  const InitialData: map<string, FieldValue> := map[NameKey := Text(""), RolesKey := Text(""), OverseasKey := Flag(false)]

  /** The value stored for an input: overseas is true exactly for the text "true". */
  function Coerce(name: string, value: string): (v: FieldValue)
    ensures name == OverseasKey ==> v == Flag(value == TrueText)
    ensures name != OverseasKey ==> v == Text(value)
  {
    if name == OverseasKey then Flag(value == TrueText) else Text(value)
  }

  /** `{ ...prevData, [name]: coerced value }`. */
  function AfterInput(data: map<string, FieldValue>, name: string, value: string): (r: map<string, FieldValue>)
    ensures r.Keys == data.Keys + {name}
    ensures r[name] == Coerce(name, value)
    ensures forall k :: k in data && k != name ==> r[k] == data[k]
  {
    data[name := Coerce(name, value)]
  }

  /** The role select writes its own key, so after choosing a role the
      record holds both the initial roles key and the select's key. */
  lemma RoleKeyCoexists(role: string)
    ensures RolesKey in AfterInput(InitialData, RoleSelectKey, role)
    ensures RoleSelectKey in AfterInput(InitialData, RoleSelectKey, role)
    ensures AfterInput(InitialData, RoleSelectKey, role)[RolesKey] == Text("")
  {
    assert RolesKey != RoleSelectKey by {
      assert |RolesKey| != |RoleSelectKey|;
    }
  }

  /** After any sequence of inputs the overseas value is still a flag, and
      every other key written holds text. */
  predicate WellTyped(data: map<string, FieldValue>)
  {
    (OverseasKey in data ==> data[OverseasKey].Flag?)
    && forall k :: k in data && k != OverseasKey ==> data[k].Text?
  }

  lemma InitialWellTyped()
    ensures WellTyped(InitialData)
  {
    assert NameKey != OverseasKey by {
      assert |NameKey| != |OverseasKey|;
    }
    assert RolesKey != OverseasKey by {
      assert |RolesKey| != |OverseasKey|;
    }
  }

  lemma InputKeepsWellTyped(data: map<string, FieldValue>, name: string, value: string)
    requires WellTyped(data)
    ensures WellTyped(AfterInput(data, name, value))
  {
  }

  class CreatePlayerForm {
    var playerData: map<string, FieldValue>
    var errorMessage: string

    constructor ()
      ensures playerData == InitialData && errorMessage == ""
    {
      playerData := InitialData;
      errorMessage := "";
    }

    /** `handleInputChange`. */
    method InputChange(name: string, value: string)
      modifies this
      ensures playerData == AfterInput(old(playerData), name, value)
      ensures errorMessage == old(errorMessage)
    {
      playerData := AfterInput(playerData, name, value);
    }

    /** `handleSubmit`, with `ok` telling whether the create request
        succeeded; the request carries the record as it is. Success resets
        the record (dropping any role-select key) and keeps any old error
        message; failure sets the error message and keeps the record. */
    method Submit(ok: bool) returns (request: map<string, FieldValue>)
      modifies this
      ensures request == old(playerData)
      ensures ok ==> playerData == InitialData && errorMessage == old(errorMessage)
      ensures !ok ==> playerData == old(playerData) && errorMessage == CreateFailed
      ensures ok ==> RoleSelectKey !in playerData
    {
      request := playerData;
      if ok {
        playerData := InitialData;
        assert RoleSelectKey !in InitialData by {
          assert |RoleSelectKey| != |NameKey| && |RoleSelectKey| != |RolesKey| && |RoleSelectKey| != |OverseasKey|;
        }
      } else {
        errorMessage := CreateFailed;
      }
    }
  }
}
