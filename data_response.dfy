/** A response that also carries a payload, and the two ways of building one. */
module DataResponses {
  import opened Nullables
  import opened Responses

  const SuccessCode: string := "100000"
  const FailureCode: string := "100001"
  const SuccessMessage: string := "操作成功"

  /** The text `DataResponse.toString` produces for the given field values. */
  function DataResponseText<T>(data: Nullable<T>, show: T -> string, success: bool,
                               message: Nullable<string>, code: Nullable<string>): (s: string)
  {
    "DataResponse [data=" + ObjectText(data, show) + ", success=" + BoolText(success)
      + ", message=" + StringText(message) + ", code=" + StringText(code) + "]"
  }

  /** The status code a built response carries matches its success flag. */
  ghost predicate CodeMatchesFlag(r: Response)
    reads r
  {
    if r.success then r.code == NonNull(SuccessCode) else r.code == NonNull(FailureCode)
  }

  /** The two codes differ, so for built responses the code tells success from failure. */
  lemma CodeDeterminesSuccess(r1: Response, r2: Response)
    requires CodeMatchesFlag(r1) && CodeMatchesFlag(r2)
    requires r1.code == r2.code
    ensures r1.success == r2.success
  {
  }

  class DataResponse<T> {
    var data: Nullable<T>
    /** The inherited `Response` part: flag, message and code. */
    const base: Response

    constructor ()
      ensures data == Null && fresh(base)
      ensures !base.success && base.message == Null && base.code == Null
    {
      data := Null;
      base := new Response();
    }

    method SetData(data: Nullable<T>)
      modifies this
      ensures this.data == data
      ensures base.success == old(base.success) && base.message == old(base.message)
      ensures base.code == old(base.code)
    {
      this.data := data;
    }

    static method BuildSuccess(data: Nullable<T>) returns (r: DataResponse<T>)
      ensures fresh(r) && fresh(r.base)
      ensures r.base.success && r.data == data
      ensures r.base.code == NonNull(SuccessCode) && r.base.message == NonNull(SuccessMessage)
      ensures CodeMatchesFlag(r.base)
    {
      r := new DataResponse<T>();
      r.base.SetSuccess(true);
      r.SetData(data);
      r.base.SetCode(NonNull(SuccessCode));
      r.base.SetMessage(NonNull(SuccessMessage));
    }

    static method BuildFailure(message: Nullable<string>) returns (r: DataResponse<T>)
      ensures fresh(r) && fresh(r.base)
      ensures !r.base.success && r.data == Null
      ensures r.base.code == NonNull(FailureCode) && r.base.message == message
      ensures CodeMatchesFlag(r.base)
    {
      r := new DataResponse<T>();
      r.base.SetSuccess(false);
      r.SetData(Null);
      r.base.SetCode(NonNull(FailureCode));
      r.base.SetMessage(message);
    }

    /** Appends the payload and the inherited fields to a builder; `show` is the
        payload's own `toString`. */
    method ToString(show: T -> string) returns (s: string)
      ensures s == DataResponseText(data, show, base.success, base.message, base.code)
    {
      var builder := "DataResponse [data=";
      builder := builder + ObjectText(data, show);
      builder := builder + ", success=";
      builder := builder + BoolText(base.success);
      builder := builder + ", message=";
      builder := builder + StringText(base.message);
      builder := builder + ", code=";
      builder := builder + StringText(base.code);
      builder := builder + "]";
      s := builder;
    }
  }
}
