/** The base response record: a success flag, a message and a status code. */
module Responses {
  import opened Nullables

  /** The text `Response.toString` produces for the given field values. */
  function ResponseText(success: bool, message: Nullable<string>, code: Nullable<string>): (s: string)
  {
    "Response [success=" + BoolText(success) + ", message=" + StringText(message)
      + ", code=" + StringText(code) + "]"
  }

  /** The flag is the only thing the text puts right after "Response [success=",
      so two responses with the same text agree on `success`. */
  lemma ResponseTextDeterminesSuccess(success1: bool, message1: Nullable<string>, code1: Nullable<string>,
                                      success2: bool, message2: Nullable<string>, code2: Nullable<string>)
    requires ResponseText(success1, message1, code1) == ResponseText(success2, message2, code2)
    ensures success1 == success2
  {
    assert ResponseText(success1, message1, code1)[18] == BoolText(success1)[0];
    assert ResponseText(success2, message2, code2)[18] == BoolText(success2)[0];
  }

  class Response {
    var success: bool
    var message: Nullable<string>
    var code: Nullable<string>

    /** Java's implicit constructor leaves every field at its default. */
    constructor ()
      ensures !success && message == Null && code == Null
    {
      success := false;
      message := Null;
      code := Null;
    }

    method SetSuccess(success: bool)
      modifies this
      ensures this.success == success
      ensures message == old(message) && code == old(code)
    {
      this.success := success;
    }

    method SetMessage(message: Nullable<string>)
      modifies this
      ensures this.message == message
      ensures success == old(success) && code == old(code)
    {
      this.message := message;
    }

    method SetCode(code: Nullable<string>)
      modifies this
      ensures this.code == code
      ensures success == old(success) && message == old(message)
    {
      this.code := code;
    }

    /** Appends the fields to a builder one piece at a time. */
    method ToString() returns (s: string)
      ensures s == ResponseText(success, message, code)
    {
      var builder := "Response [success=";
      builder := builder + BoolText(success);
      builder := builder + ", message=";
      builder := builder + StringText(message);
      builder := builder + ", code=";
      builder := builder + StringText(code);
      builder := builder + "]";
      s := builder;
    }
  }
}
