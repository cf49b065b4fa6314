# go-starter core, modelled in Dafny

This project models the logic at the heart of the go-starter web service
template and proves properties of it. The modelled parts are:

- **The pagination engine** (`pkg/pagination`). A request's query-string
  multimap (`map[string][]string`) and a declared schema go in. A query
  descriptor comes out: a limit, an offset, an order string and a list of
  filter scopes.
  - The schema is a `FilterDefinition` of filter and sort configurations.
  - Each filter value is written `op:v1,v2`.
  - The operator is checked against a per-type table and for arity, then
    turned into a clause by a per-type builder.
  - The builder types are ID/NUMBER, STRING (one column or an OR group over
    several), BOOL, DATE (widened to whole days), DATETIME and ENUM
    (whitelisted, failing closed).
  - The gorm closures become a `Scope` datatype of clauses (`Where`,
    `OrGroup`, the no-op `Identity`, opaque `Custom` scopes, and the meta
    scopes `Limit`, `Offset`, `Order`).
  - Applying a pagination to a query is appending scopes to a sequence.
- **The module generator's case conversions** (`pkg/generator`): snake_case,
  camelCase, PascalCase and the flat lower-case name, and the
  `ModuleData` record built from them.
- **Configuration validation and the derived values** (`pkg/config`):
  validation, the database URL, the server address and the environment
  predicates.
- **The application error type** (`pkg/errors`) and its constructors.
- **Validation-error formatting** (`pkg/utils/validator.go`) and the
  generic `Map` (`pkg/utils/utils.go`).

Files:

- `wrappers.dfy`: the `Option` type.
- `gostrings.dfy`: the parts of Go's `strings` and `strconv` the core uses,
  over `seq<char>`. These are `SplitN`, `Split`, `Join`, `ReplaceAll` of one
  character, `FieldsFunc`, `Fields`, `TrimSpace`, ASCII `ToLower`/`ToUpper`,
  `Atoi` and `Itoa`.
- `pagination.dfy`, `generator.dfy`, `config.dfy`, `errors.dfy`,
  `validator.dfy`, `utils.dfy`: one module per source file.

How the source's form is kept:

- Mutable objects become classes: `FilterDefinition`, `Pagination` and
  `ModuleGenerator`.
- Loops in the source become methods with loop invariants, each proved equal
  to a specification function. These are `GetFields`, the multi-column
  string builder, `buildScopes`, `Apply`, `validateOrder`, the case
  conversions, `FormatValidationErrors` and `Map`.
- Go's map iteration in `buildScopes` is an arbitrary choice (`:|`). A ghost
  out-parameter records the order it took.

## Model

| member | source | states |
|---|---|---|
| `Pagination.ParseFilterOperation` | pkg/pagination/pagination.go:264-277 | There is always at least one value. Text without `:` is an `eq` on the whole text. Otherwise the operator holds no `:`, and operator + ":" + the values joined by "," rebuilds the input. |
| `Pagination.ParsePrefixed` | pkg/pagination/pagination.go:273-276 | For an operator name without `:`, the values are exactly the text after the first `:` split on `,`. |
| `Pagination.ParsePair` | pkg/pagination/pagination.go:264-277 | `name:a,b` with comma-free a and b parses to operator name and values [a, b]. |
| `Pagination.ParseSingle` | pkg/pagination/pagination.go:264-277 | `name:a` with a comma-free a parses to operator name and values [a]. |
| `Pagination.FilterConfig.Columns` | pkg/pagination/pagination.go:96-99 | The columns are never empty: the search fields, or else the single field. |
| `Pagination.FilterConfig.GetFields` | pkg/pagination/pagination.go:95-111 | The prefixing loop returns exactly the qualified columns. |
| `Pagination.OperatorsByType` | pkg/pagination/pagination.go:54-63 | Every known type has a non-empty list that contains `eq`, and a type outside the seven has none. Every listed operator is one of the ten. |
| `Pagination.FilterConfig.AllowedOperators` | pkg/pagination/pagination.go:86-91 | The configured list when one is given, else the type's default list. It is empty only when no list is configured and the type is outside the seven. |
| `Pagination.ArityOk` | pkg/pagination/pagination.go:327-336 | The full arity table, both ways: `between` passes iff it has exactly two values, `in` and `not_in` iff they have at least one, and every other operator iff it has exactly one. |
| `Pagination.IsValidOperation` | pkg/pagination/pagination.go:319-337 | Valid exactly when the operator is allowed and the arity fits. A disallowed operator is never valid. An allowed `between` is valid iff it has two values, an allowed `in`/`not_in` iff it has at least one, and any other allowed operator iff it has exactly one. |
| `Pagination.GetFieldsShape` | pkg/pagination/pagination.go:95-111 | One entry per search field, or exactly one. Each entry without `.` gets `table.` when a table name is set. Other entries are unchanged. |
| `Pagination.GetFieldsIdempotent` | pkg/pagination/pagination.go:102-107 | Prefixing what GetFields returned a second time changes nothing. So the in-place overwrite of the search fields is harmless. |
| `Pagination.QualifyIdempotent` | pkg/pagination/pagination.go:104-105 | Qualifying a column twice equals qualifying it once. |
| `Pagination.TableNamePrefixExample` | pkg/pagination/pagination.go:95-111 | `status` on table `users` becomes `users.status`. The search fields `u.name` and `email` become `u.name` and `users.email`. |
| `Pagination.FilterDefinition.constructor` | pkg/pagination/pagination.go:130-135 | A new definition has empty filter and sort registries. |
| `Pagination.FilterDefinition.AddFilter` | pkg/pagination/pagination.go:138-141 | Registers (or overwrites) one filter. The sorts are untouched. It returns the receiver, for chaining. |
| `Pagination.FilterDefinition.AddSort` | pkg/pagination/pagination.go:144-147 | Registers (or overwrites) one sort. The filters are untouched. It returns the receiver. |
| `Pagination.WithDefaults` | pkg/pagination/pagination.go:172-184 | Zero options are filled in, and the resulting fields are never zero. Every non-zero option is kept. |
| `Pagination.DefaultOptions` | pkg/pagination/pagination.go:173-184 | All-zero options become limit 20, maximum 100, order "id desc" and zone Asia/Jakarta. |
| `Pagination.Pagination.constructor` | pkg/pagination/pagination.go:171-195 | NewPagination stores the conditions, the definition and the defaulted options. Limit, offset and order are the parsed values. There are no custom scopes yet. |
| `Pagination.Pagination.AddCustomScope` | pkg/pagination/pagination.go:199-201 | Custom scopes are appended in registration order. Limit, offset and order are unchanged. |
| `Pagination.Pagination.BuildFilterScope` | pkg/pagination/pagination.go:281-315 | The imperative builder, which uses the GetFields loop and the string-scope methods, computes `FilterScope`. |
| `Pagination.FilterScope` | pkg/pagination/pagination.go:281-315 | A scope exists only when there is a value whose first entry parses to a valid operation. It is a clause, an OR group or the no-op scope, and only a STRING filter gives a group or the no-op. A clause is on one of the qualified columns. |
| `Pagination.TypedScope` | pkg/pagination/pagination.go:299-312 | Only the seven known types have a builder. The scope is a clause, an OR group or the no-op, and a group or the no-op comes only from STRING. A clause is on one of the given columns. |
| `Pagination.FilterScopeValid` | pkg/pagination/pagination.go:286-312 | Once the first value parses to a valid operation, the scope is the one of the type-specific builder. |
| `Pagination.InvalidOperationDropped` | pkg/pagination/pagination.go:288-291 | An operation failing the operator or arity check yields no scope. |
| `Pagination.NumericScope` | pkg/pagination/pagination.go:342-358 | A clause exists iff the operator is in the numeric table, and it is on the given column. |
| `Pagination.NumericClause` | pkg/pagination/pagination.go:343-355 | `field <sql-op> ?` bound to the value, or to the whole list for `in` and `not_in`. For `between` it is `field BETWEEN ? AND ?`, bound to the two values. |
| `Pagination.StringCond` | pkg/pagination/pagination.go:393-410 | A condition exists iff the operator is a string operator. It is `LOWER(field) LIKE LOWER(?)` bound to `%v%` for `like`. Otherwise it is `field <sql-op> ?`, bound to the list for `in`/`not_in` and to the first value else. |
| `Pagination.SingleStringScope` | pkg/pagination/pagination.go:370-385 | A clause on the column iff the operator is a string operator, the same condition as one OR-group member. Otherwise it is the no-op scope. |
| `Pagination.StringConds` | pkg/pagination/pagination.go:392-411 | One condition per column for a string operator, none otherwise. |
| `Pagination.MultiStringScope` | pkg/pagination/pagination.go:388-420 | The no-op scope iff the operator is not a string operator or there are no columns. Otherwise an OR group with one condition per column. |
| `Pagination.StringScope` | pkg/pagination/pagination.go:362-367 | The no-op scope iff the operator is not a string operator. Otherwise one column gives a clause on that column and several give an OR group of one condition each. |
| `Pagination.DefaultOperatorsAreBuilt` | pkg/pagination/pagination.go:55-63 | With the default operator table, an ID, NUMBER, STRING or BOOL filter yields a scope iff its operation is valid. That scope is never the no-op one. |
| `Pagination.NumericOperatorsBuilt` | pkg/pagination/pagination.go:342-358 | Every operator of the numeric table has a numeric builder case. |
| `Pagination.StringOperatorsBuilt` | pkg/pagination/pagination.go:362-420 | Every operator of the string table gives a real condition. |
| `Pagination.StringCondsShape` | pkg/pagination/pagination.go:388-420 | For a string operator the OR group has one condition per column, in column order. Any other operator gives none. |
| `Pagination.BuildMultiStringScope` | pkg/pagination/pagination.go:388-420 | The looping builder equals the OR group, or the no-op scope when there are no conditions. |
| `Pagination.BuildStringScope` | pkg/pagination/pagination.go:362-367 | One column gives the single-column builder. Several columns give the OR group. |
| `Pagination.MultiFieldLike` | pkg/pagination/pagination.go:388-420 | `like:v` over several search fields is one OR group of `LOWER(col) LIKE LOWER(%v%)`, one per column, in order. |
| `Pagination.BoolOnlyEquals` | pkg/pagination/pagination.go:423-432 | A BOOL filter with any operator other than `eq` yields no scope. |
| `Pagination.BoolBetweenDropped` | pkg/pagination/pagination.go:423-432 | `between:x,y` on a BOOL filter yields no scope. |
| `Pagination.BoolScope` | pkg/pagination/pagination.go:423-432 | A clause exists iff the operator is `eq`. It is `field = ?`, bound to the flag "first value lower-cased is `true`". |
| `Pagination.BoolFlagExamples` | pkg/pagination/pagination.go:428 | `TRUE` and `True` give true. `1` and `yes` give false. |
| `Pagination.EnumWhitelist` | pkg/pagination/pagination.go:542-562 | One value outside the whitelist drops an ENUM filter. Otherwise `eq` compares with the first value and `in` with the full list. |
| `Pagination.EnumBogusValueDropsAll` | pkg/pagination/pagination.go:543-548 | `in:good,bogus` gives no scope at all, not a filter on `good` alone. |
| `Pagination.EnumScope` | pkg/pagination/pagination.go:542-562 | A clause exists iff the operator is `eq` or `in` and every value is whitelisted. It is `field = ?` or `field IN ?`. |
| `Pagination.DateWidening` | pkg/pagination/pagination.go:445-492 | `eq` and `between` end at the last nanosecond of the (last) day, day start + 24h - 1ns. `gte` starts at the day start. `lte` ends at the day's last nanosecond. |
| `Pagination.DateScope` | pkg/pagination/pagination.go:445-492 | A clause exists iff the operator is in the DATE table and every value it uses parses. `eq` and `between` give `field BETWEEN ? AND ?`. `gte` and `lte` give `field >= ?` and `field <= ?`. |
| `Pagination.DateTimeScope` | pkg/pagination/pagination.go:495-539 | A clause exists iff the operator is in the DATETIME table and every value it uses parses. `between` gives `field BETWEEN ? AND ?`, and every other operator `field <sql-op> ?`. |
| `Pagination.DateTimeAsGiven` | pkg/pagination/pagination.go:495-539 | A DATETIME clause binds the parsed instants unchanged, one per value used, with no widening to whole days. |
| `Pagination.UnparseableDateDropped` | pkg/pagination/pagination.go:445-539 | Any value that does not parse drops a DATE or DATETIME filter. |
| `Pagination.DateEqualsIsBetweenSameDay` | pkg/pagination/pagination.go:449-468 | On a DATE filter whose operator list allows both `eq` and `between`, or neither, `eq:d` and `between:d,d` give the identical scope for every text d. |
| `Pagination.CommaArity` | pkg/pagination/pagination.go:329-336 | A comma inside d breaks the arity of both `eq:d` and `between:d,d`. |
| `Pagination.PlaceholdersMatchArgs` | pkg/pagination/pagination.go:342-562 | Every filter scope has exactly one `?` per bound argument, given column names without `?`. Values never reach the SQL text. |
| `Pagination.CountJoinSql` | pkg/pagination/pagination.go:410-418 | The OR-joined text of a group has as many `?` as the group binds arguments. |
| `Pagination.ParseLimit` | pkg/pagination/pagination.go:567-577 | A positive parsed request is capped at the maximum. Anything else (missing, empty, not a number, zero, negative) gives the default. |
| `Pagination.LimitBounds` | pkg/pagination/pagination.go:567-577 | With positive settings the limit is positive, and at most the maximum unless it is the default. |
| `Pagination.MaxLimitEnforced` | pkg/pagination/pagination.go:570-573 | `limit=500` with a maximum of 50 gives 50. |
| `Pagination.ParseOffset` | pkg/pagination/pagination.go:580-587 | The offset is never negative. It is the parsed request when that is non-negative, and 0 otherwise. |
| `Pagination.ValidateOrder` | pkg/pagination/pagination.go:601-634 | The early-return loop over comma clauses answers exactly `OrderValid`. |
| `Pagination.ParseOrder` | pkg/pagination/pagination.go:590-598 | The order is the default, or the first `sort` value when that value validates. |
| `Pagination.OrderAllOrNothing` | pkg/pagination/pagination.go:590-598 | The order is either exactly the supplied sort string or the default. The supplied one is kept iff it validates (or equals the default). |
| `Pagination.UnknownSortFieldFallsBack` | pkg/pagination/pagination.go:620-623 | One clause whose first token names an unregistered field makes the whole order fall back to the default. |
| `Pagination.KeyScopes` | pkg/pagination/pagination.go:236-240 | A condition key contributes at most one scope. |
| `Pagination.FilterScopes` | pkg/pagination/pagination.go:235-241 | There are never more filter scopes than condition keys. |
| `Pagination.FilterScopesSnoc` | pkg/pagination/pagination.go:235-241 | One more key in the iteration adds that key's scope, if any, at the end. |
| `Pagination.FilterScopesMembers` | pkg/pagination/pagination.go:235-241 | A scope is present iff some key registered as a filter produced it. Unknown keys contribute nothing. |
| `Pagination.FilterScopesAppend` | pkg/pagination/pagination.go:235-241 | The scopes of a concatenated key order concatenate. |
| `Pagination.FilterScopesOrderIndependent` | pkg/pagination/pagination.go:235 | Any two iteration orders of the same conditions give the same multiset of filter scopes. |
| `Pagination.Pagination.BuildScopes` | pkg/pagination/pagination.go:233-254 | The filter scopes come in the order the keys were visited, with each key visited once, then the custom scopes. The meta scopes are Limit, Offset, Order. |
| `Pagination.Pagination.Apply` | pkg/pagination/pagination.go:204-218 | The query receives the filter scopes, then the custom scopes, then Limit, Offset and Order, in that order. |
| `Pagination.Pagination.ApplyWithoutMeta` | pkg/pagination/pagination.go:222-230 | The same, without the three meta scopes. |
| `Generator.Title` | pkg/generator/generator.go:168 | strings.Title keeps the length. |
| `Generator.TitleAt` | pkg/generator/generator.go:168 | Title upper-cases exactly the first character and every character after a separator. |
| `Generator.TitleLowerWord` | pkg/generator/generator.go:168 | For an ASCII alphanumeric word, Title(ToLower(w)) is the upper-cased first character plus the lower-cased rest. |
| `Generator.Words` | pkg/generator/generator.go:158-160 | strings.FieldsFunc on `_`, `-` and space gives non-empty words free of separators. Together they are the input without its separators. There are no words iff the input is only separators. |
| `Generator.SnakeCase` | pkg/generator/generator.go:146-155 | The snake name holds no upper-case letter. Its length is the input's plus the number of upper-case letters after the first character. |
| `Generator.Underscored` | pkg/generator/generator.go:146-153 | The loop adds one `_` per upper-case letter after position 0, so the length grows by exactly that many. |
| `Generator.SnakeTwoHumps` | pkg/generator/generator.go:146-155 | Two humps `a` + `B…` become lower(a) + "_" + lower(B…), so "UserProfile" becomes "user_profile". |
| `Generator.LowerCase` | pkg/generator/generator.go:225-227 | The flat name holds no `_` and no upper-case letter. Its length is the input's minus its `_` count. |
| `Generator.SnakeThenLowerCase` | pkg/generator/generator.go:62 | The flat name of the snake name is the flat name of the input. |
| `Generator.PascalCase` | pkg/generator/generator.go:173-183 | The Pascal name holds no `_`, `-` or space. It is empty iff the input is only separators. |
| `Generator.PascalOfWord` | pkg/generator/generator.go:180 | A single alphanumeric word is upper-cased first and lower-cased after, so "UserProfile" gives "Userprofile". |
| `Generator.CamelCase` | pkg/generator/generator.go:157-171 | Without words, the camel name is the input. Otherwise it holds no separator. |
| `Generator.CamelPascalAgree` | pkg/generator/generator.go:157-183 | When the first word is alphanumeric, the camel and Pascal names differ only in the case of the first character. |
| `Generator.ToSnakeCase` | pkg/generator/generator.go:186-195 | The rune loop computes `SnakeCase`. |
| `Generator.ToCamelCase` | pkg/generator/generator.go:197-211 | The word loop computes `CamelCase`. |
| `Generator.ToPascalCase` | pkg/generator/generator.go:213-223 | The word loop computes `PascalCase`. |
| `Generator.ToLowerCase` | pkg/generator/generator.go:225-227 | Computes `LowerCase`: the result holds no `_` and no upper-case letter, and its length is the input's minus its `_` count. |
| `Generator.ModuleGenerator.constructor` | pkg/generator/generator.go:17-21 | Stores the modules path. |
| `Generator.ModuleGenerator.toSnakeCase` | pkg/generator/generator.go:146-155 | The unexported copy also computes `SnakeCase`, so it agrees with ToSnakeCase on every input. |
| `Generator.ModuleGenerator.toCamelCase` | pkg/generator/generator.go:157-171 | The unexported copy also computes `CamelCase`. |
| `Generator.ModuleGenerator.toPascalCase` | pkg/generator/generator.go:173-183 | The unexported copy also computes `PascalCase`. |
| `Generator.ModuleGenerator.prepareModuleData` | pkg/generator/generator.go:51-70 | The record holds the snake, camel, Pascal and flat lower-case names of the module name. |
| `Config.Config.Validate` | pkg/config/config.go:149-183 | Returns no error iff every requirement holds. |
| `Config.ValidateReportsFirstFailure` | pkg/config/config.go:149-183 | The checks run in a fixed order, and the error is the message of the first that fails. |
| `Config.FirstFailure` | pkg/config/config.go:149-183 | None iff all checks pass. Otherwise it is the message of a failing check with every earlier check passing. |
| `Config.DefaultSecretRejected` | pkg/config/config.go:165-167 | The shipped default secret never validates. |
| `Config.EnvironmentMessageText` | pkg/config/config.go:176-179 | The environment error spells the list as `[development staging production]`. |
| `Config.Config.DatabaseURL` | pkg/config/config.go:214-236 | The URL is empty iff the driver is neither postgres nor mysql. The postgres URL starts with `postgres://`. |
| `Config.Config.ServerAddress` | pkg/config/config.go:239-241 | The address is the host, a `:`, and a port text without `:`. |
| `Config.Config.IsProduction` | pkg/config/config.go:244-246 | True only when the environment check passes, and never together with IsDevelopment. In a valid configuration, production or development holds iff the environment is not staging. |
| `Config.Config.IsDevelopment` | pkg/config/config.go:249-251 | True only when the environment check passes. In a valid configuration, when it is false the environment is staging or production. |
| `Config.PostgresURLUser` | pkg/config/config.go:216-224 | The postgres URL starts with `postgres://`, followed by the user name up to the first `:`. |
| `Config.MysqlURLUser` | pkg/config/config.go:225-232 | The mysql DSN starts with the user name up to the first `:`. |
| `Config.ServerAddressPort` | pkg/config/config.go:239-241 | The port parses back from the text after the last `:` of host:port, whatever the host. |
| `Config.AfterLast` | pkg/config/config.go:240 | The text after the last occurrence of a character no longer contains that character. |
| `Errors.AppError.Unwrap` | pkg/errors/errors.go:23-25 | Unwrap gives a cause exactly when one is stored, and then it is the stored cause. |
| `Errors.AppError.Error` | pkg/errors/errors.go:14-19 | Without a cause the error reads as its message. With one, it reads as the text of the innermost error of the chain. |
| `Errors.GoError.Text` | pkg/errors/errors.go:14-19 | The Error() text of any error is the text of the innermost error of its Unwrap chain. |
| `Errors.Chain` | pkg/errors/errors.go:21-25 | The Unwrap chain starts at the error, each element unwraps to the next, and the last unwraps to nothing. |
| `Errors.Is` | pkg/errors/errors.go:21-25 | errors.Is holds iff the target is on the Unwrap chain. |
| `Errors.NewAppError` | pkg/errors/errors.go:36-42 | Code, message and cause are stored as given. The error reads as the message without a cause and as the cause's text with one. Every error errors.Is finds in the cause, it finds in the new error too. |
| `Errors.NewNotFoundError` | pkg/errors/errors.go:44-50 | Code 404 and the given message. The error reads "resource not found" whatever the message, and errors.Is finds ErrNotFound in it. |
| `Errors.NewBadRequestError` | pkg/errors/errors.go:52-58 | Code 400 and the given message. The error reads "invalid input" whatever the message, and errors.Is finds ErrInvalidInput in it. |
| `Errors.NewInternalServerError` | pkg/errors/errors.go:60-66 | Code 500, the given message and cause. It reads like NewAppError, and keeps everything errors.Is finds in the cause. |
| `Errors.WrapTwice` | pkg/errors/errors.go:14-42 | An AppError wrapping an AppError reads as what the inner one wraps. errors.Is reaches that cause and its innermost error. |
| `Errors.Root` | pkg/errors/errors.go:23-25 | The innermost error of the Unwrap chain unwraps to nothing, and errors.Is reaches it from the start of the chain. |
| `Validator.FormatSingleError` | pkg/utils/validator.go:32-62 | Every message is non-empty and ends with a full stop. |
| `Validator.UnknownTagGeneric` | pkg/utils/validator.go:59-60 | Any tag without its own message gets "This field is invalid.". |
| `Validator.ParamVerbatim` | pkg/utils/validator.go:41-52 | min, max and len put the parameter verbatim between a prefix and a suffix. Those depend only on the tag and the kind. |
| `Validator.OneofLists` | pkg/utils/validator.go:53-54 | The oneof message is the space-separated values joined by ", ". |
| `Validator.ReplaceIsSplitJoin` | pkg/utils/validator.go:54 | Replacing every occurrence of a character is splitting on it and joining with the replacement. |
| `Validator.FormatValidationErrors` | pkg/utils/validator.go:17-29 | TotalErrors is the number of errors. The field map is that of the errors written in order under their snake-cased names. |
| `Validator.FieldMessages` | pkg/utils/validator.go:18-23 | Every key comes from some error through the snake-case mapping and holds that error's message. |
| `Validator.FieldMessagesKeys` | pkg/utils/validator.go:18-23 | The keys are exactly the snake-cased field names. |
| `Validator.FieldMessagesBound` | pkg/utils/validator.go:18-23 | There are never more keys than errors. |
| `Validator.LastErrorWins` | pkg/utils/validator.go:19-22 | A key holds the message of the last error mapped to it. |
| `Utils.Map` | pkg/utils/utils.go:5-11 | The result is a fresh slice of the same length, with fn of each element at the same index. The input is only read. |
| `Utils.MapSeq` | pkg/utils/utils.go:5-11 | The value-level map keeps the length and applies fn at every index. |
| `GoStrings.Split` | pkg/pagination/pagination.go:275 | strings.Split never returns an empty list. It has one more part than separators, and no part holds one. |
| `GoStrings.JoinSplit` | pkg/pagination/pagination.go:275 | Joining the parts with the separator restores the input. |
| `GoStrings.AtoiItoa` | pkg/pagination/pagination.go:569 | strconv.Atoi parses back every int64 that strconv.Itoa prints. |

## Left out

- SQL execution. What gorm and the database make of the clauses (LIKE
  matching, BETWEEN on strings, row filtering, counting) is outside the
  model. Clauses are data.
- Time zones and calendar parsing. `time.LoadLocation` and
  `time.ParseInLocation` are the `Calendar` parameter: partial functions from
  a zone and a text to an instant in nanoseconds.
  - A failed `LoadLocation("Asia/Jakarta")` in NewPagination, which would
    leave a nil zone, is not modelled.
  - The zone is `Location("Asia/Jakarta")` by name.
- A nil `*FilterDefinition` handed to NewPagination is not modelled. The
  code would panic when it reads the filter registry (pagination.go line
  236) or the sort registry (line 620). The model's `FilterDefinition` is an
  object reference that is never null.
- Filter types are the seven named ones plus `OtherType(name)`, which
  stands for any other type name. Nothing in the model stops
  `OtherType("ID")` from being written; it is treated as an unknown type,
  as a type name outside the seven would be in the code.
- Custom scopes are opaque values (`Custom(id)`). Their effect on the query
  is unknown.
- Pagination.WithDefaults: only zero settings are defaulted, as the code
  does. A negative default limit, maximum or order passes through, and
  `LimitBounds` therefore requires positive settings.
- Pagination.ParseLimit: the default limit itself is not capped at the
  maximum, as in the code. The contract states the code's behaviour, not a
  stronger `limit <= max` bound.
- Pagination.ValidateOrder: the table-name check applies only when the sort
  configuration has a non-empty table name. Without one, any qualifier is
  accepted, as in the code.
- A STRING filter with a custom operator outside eq/neq/like/in/not_in
  yields the no-op scope (`Identity`), as the code's builders do, rather
  than no scope.
- Pagination.FilterConfig.GetFields returns a fresh sequence. The code
  overwrites the search-field slice shared with the registered
  configuration. `GetFieldsIdempotent` shows the rewrite changes nothing on
  later calls, so the aliasing itself is not modelled.
- Pagination.Pagination.BuildScopes: the iteration order of the Go map is a
  ghost out-parameter. `FilterScopesOrderIndependent` states what holds for
  every order.
- Case mapping is ASCII only. `Lower`/`Upper` leave every non-ASCII
  character unchanged. `strings.Title` separators outside ASCII are the
  Unicode white space.
- Validator.FormatValidationErrors: strcase.SnakeCase is a function
  parameter, because the library is not part of this model.
- Go error identity (`==` on error values, used by errors.Is) is value
  equality on the error datatype. Two sentinels with the same text are
  therefore the same error.
- Durations are integers of nanoseconds, and nothing is computed with them.
- `config.Load`, `setDefaults` and the viper getters are foreign I/O with
  global state, and are not modelled. This includes the `APP_ENV` vs
  `APP_ENVIRONMENT` key mismatch.
- The generator's file writing (`GenerateModule`, directory creation,
  templates) and `model_generator.go` are not part of this model.
- `pkg/validator/unique.go`, the repository, services, controllers,
  middleware, response builders and bootstrap are not part of this model.
  They are database and framework plumbing.
