# hystrix-demo: the user lookup and its response objects

This project models the code that the hystrix-demo repository implements itself.
`UserService` keeps a fixed table of six users. Its `getUserById` walks the table in
list order and returns a `DataResponse<User>`. On the first user whose id equals the
argument, that is a success response (`success = true`, code `"100000"`, message
`"操作成功"`, data = the user). When no user matches, it is a failure response
(`success = false`, code `"100001"`, message `"未获取到指定用户"`, data = `null`).
`DataResponse` extends the `Response` record (`success`, `message`, `code`) with a
`data` payload. Each class has setters and a `toString` that builds its text
with a `StringBuilder`.

Modules: one per source file, plus `Nullables`, which models Java's `null` and is shared by the others.

- `Nullables`: Java references that may be `null`, as `Nullable<T> = Null | NonNull(value)`,
  and the text `StringBuilder.append` writes for a string, an object and a boolean
  (`null` is written as `"null"`).
- `Responses` (`Response.java`): the class `Response` with its three fields, its setters and
  `ToString`, and the function `ResponseText` that is its output format.
- `DataResponses` (`DataResponse.java`): the class `DataResponse<T>`, the builders
  `BuildSuccess` and `BuildFailure`, `ToString`, and the function `DataResponseText`.
  Java's inheritance becomes composition: a `DataResponse` holds its `Response` part
  in the immutable field `base`, which its constructor allocates fresh.
- `UserServices` (`UserService.java`): the datatype `User`, the table `UserTable`, the
  specification function `FindById` (first match in list order), and the class
  `UserService`. Its method `GetUserById` is the for-each loop with early return.

The getters `isSuccess`, `getMessage`, `getCode` and `getData` only return a field. In
Dafny they are the field reads `r.base.success`, `r.base.message`, `r.base.code` and
`r.data`. The setters' contracts state the set-then-get round trip in those terms.

The table is the `const` field `users`, of the value type `seq<User>`, so no operation can
change it. The Java list from `Arrays.asList` would allow `set`, but the source never calls it.

## Model

| member | source | states |
|---|---|---|
| `Responses.Response.constructor` | src/main/java/cn/zzs/hystrix/Response.java:3-19 | a new response starts with `success` false and `message` and `code` null |
| `Responses.Response.SetSuccess` | src/main/java/cn/zzs/hystrix/Response.java:22-30 | after `setSuccess(b)`, `isSuccess()` is `b`; message and code are unchanged |
| `Responses.Response.SetMessage` | src/main/java/cn/zzs/hystrix/Response.java:33-40 | after `setMessage(m)`, `getMessage()` is `m`; success and code are unchanged |
| `Responses.Response.SetCode` | src/main/java/cn/zzs/hystrix/Response.java:58-65 | after `setCode(c)`, `getCode()` is `c`; success and message are unchanged |
| `Responses.Response.ToString` | src/main/java/cn/zzs/hystrix/Response.java:43-54 | the appended pieces give `"Response [success=" + success + ", message=" + message + ", code=" + code + "]"`, with null written as `"null"` |
| `Responses.ResponseTextDeterminesSuccess` | src/main/java/cn/zzs/hystrix/Response.java:43-54 | two `Response` texts that are equal come from the same success flag |
| `DataResponses.DataResponse.constructor` | src/main/java/cn/zzs/hystrix/DataResponse.java:3-4 | a new data response has null data and a fresh `Response` part with default fields |
| `DataResponses.DataResponse.SetData` | src/main/java/cn/zzs/hystrix/DataResponse.java:7-14 | after `setData(x)`, `getData()` is `x`; success, message and code are unchanged |
| `DataResponses.DataResponse.BuildSuccess` | src/main/java/cn/zzs/hystrix/DataResponse.java:17-24 | a new response with success true, data equal to the argument (null included), code `"100000"` and message `"操作成功"` |
| `DataResponses.DataResponse.BuildFailure` | src/main/java/cn/zzs/hystrix/DataResponse.java:27-34 | a new response with success false, data null, code `"100001"` and the given message |
| `DataResponses.CodeDeterminesSuccess` | src/main/java/cn/zzs/hystrix/DataResponse.java:17-34 | the two builders' codes differ, so two built responses with the same code have the same success flag |
| `DataResponses.DataResponse.ToString` | src/main/java/cn/zzs/hystrix/DataResponse.java:37-50 | the appended pieces give `"DataResponse [data=" + data + ", success=" + success + ", message=" + message + ", code=" + code + "]"`, with null written as `"null"` |
| `UserServices.FindById` | src/main/java/cn/zzs/hystrix/UserService.java:35-40 | a user is found exactly when some user has the id; the user found has that id, is in the list, and no earlier user has that id |
| `UserServices.FindByIdUnique` | src/main/java/cn/zzs/hystrix/UserService.java:35-38 | when ids are pairwise distinct, looking up any listed user's id returns that user |
| `UserServices.UserTableIdsDistinct` | src/main/java/cn/zzs/hystrix/UserService.java:20-27 | the six ids `"1"` to `"6"` of the table are pairwise distinct |
| `UserServices.UserTableLookup` | src/main/java/cn/zzs/hystrix/UserService.java:20-38 | each user of the table is what a lookup of its own id returns |
| `UserServices.LookupUserOne` | src/main/java/cn/zzs/hystrix/UserService.java:20-38 | looking up `"1"` in the table returns `("1", "zzs001", 18)` |
| `UserServices.UserService.constructor` | src/main/java/cn/zzs/hystrix/UserService.java:20-27 | the service's table is the six users in list order |
| `UserServices.UserService.GetUserById` | src/main/java/cn/zzs/hystrix/UserService.java:29-41 | a fresh response whose data is the first user with the id (null if none); success holds exactly when the id occurs in the table; on success the data's id is the argument and the code and message are the success ones; otherwise data is null, the code is `"100001"` and the message is `"未获取到指定用户"` |

## Left out

- The Hystrix command framework is not modelled. That covers the circuit breaker, the thread-pool bulkhead, timeouts, the request cache, fallback routing and the Rx observables. The tests only configure and call it. It is a foreign library with no source in the repository, and it is about concurrency and timing.
- The `Thread.sleep(500)` at the start of `getUserById` and its `InterruptedException` handler are not modelled. They only add latency and do not change the returned value.
- The lazy singleton `UserService.instance()` is not modelled, because it depends on JVM class initialisation. The service is an object built by its constructor.
- SLF4J logging is not modelled.
- `User.java` is not part of this model. `User` is a datatype with `id`, `name` and `age`. Its `toString` is a parameter `show` of `DataResponse.ToString`.
- `age` is an unbounded integer rather than a 32-bit `int`. No arithmetic is done on it.
- `GetUserById` takes a non-null `userId`. In Java, a `null` argument equals no id in the table, so it gets the failure response.
- Java's inheritance of `Response` by `DataResponse` is modelled as composition through `base`. The inherited getters and setters are reached as `r.base.SetSuccess(...)` and so on. The `toString` override is not dispatched: in Java a `DataResponse` seen as a `Response` still prints the `"DataResponse [...]"` text, while in the model `r.base.ToString()` gives the `"Response [...]"` text.
