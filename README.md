# Discord core records and gateway tables, in Dafny

This project models the value-level core of a small C++ Discord bot
library: the user-flag bitmask and its `|` and `&` operators, the
premium-type, channel-type, gateway-opcode and gateway-close-code
enumerations, the truthiness operators of embeds and channels, and the
field defaults of the user, message and channel records. Everything in it
is a pure function or predicate over datatypes, because the modelled C++
is `constexpr` expressions, enumerator values and field initialisers.

Modules follow the headers:

- `Users` (`users.dfy`, core/user.hpp): `UserFlag` is a one-constructor
  datatype over `bv32`, standing for a scoped enumeration whose underlying
  type is a 32-bit unsigned integer. Every bit pattern is a value, so the
  result of `|` need not be a named enumerator. `Or` and `And` combine the
  underlying bits, as the hand-written operators do. `Covers(a, b)` says
  every bit of `b` is set in `a`. With it, `Or` is the least mask covering
  both operands and `And` the greatest mask both operands cover.
- `Messages` (`messages.dfy`, core/message.hpp): `Embed.ToBool` is
  `operator bool`. The comment above the operator says a valid embed needs
  a title and a description. The code accepts an embed with either one. The
  model follows the code, and `TitleOnlyEmbedIsTruthy` and
  `DescriptionOnlyEmbedIsTruthy` state the difference.
- `Channels` (`channels.dfy`, core/channel.hpp): channel types, permission
  overwrites, `Channel.ToBool` and the channel defaults. The C++ `int`
  fields are the newtype `Int32`.
- `Gateway` (`gateway.dfy`, core/client.hpp): the opcode and close-code
  tables, with `ToInt`, a partial `...FromInt` lookup and the "Client
  Action" column (send, receive or both).
- `Wrappers` (`wrappers.dfy`): the `Option` type of the lookups.

Fields that the C++ declares without an initialiser (`User::flags`,
`User::premium_type`, `User::public_flags`, `Channel::type`) take whatever
value the record's initialisation gives them. The default-record functions
take those values as parameters.

## Model

| member | source | states |
|---|---|---|
| `Users.Or` | core/user.hpp:68-71 | the result of OR has every bit of both operands set |
| `Users.OrLeast` | core/user.hpp:68-71 | any mask with every bit of both operands covers their OR, so OR is exactly the bitwise union |
| `Users.And` | core/user.hpp:73-76 | every bit of the result of `&` is set in both operands |
| `Users.AndGreatest` | core/user.hpp:73-76 | any mask covered by both operands is covered by their `&`, so `&` is exactly the bitwise intersection |
| `Users.OrCommutative` | core/user.hpp:68-71 | `Or(a, b) == Or(b, a)` |
| `Users.OrAssociative` | core/user.hpp:68-71 | `Or(Or(a, b), c) == Or(a, Or(b, c))` |
| `Users.OrIdempotent` | core/user.hpp:68-71 | `Or(a, a) == a` |
| `Users.OrIdentity` | core/user.hpp:18-76 | `NONE` is a two-sided identity of OR |
| `Users.AndCommutative` | core/user.hpp:73-76 | `a & b == b & a` |
| `Users.AndAssociative` | core/user.hpp:73-76 | `(a & b) & c == a & (b & c)` |
| `Users.AndIdempotent` | core/user.hpp:73-76 | `a & a == a` |
| `Users.AndAbsorbing` | core/user.hpp:18-76 | `NONE` is two-sided absorbing for `&` |
| `Users.Absorption` | core/user.hpp:68-76 | `a & (a OR b) == a` and `(a OR b) & b == b` |
| `Users.NamedFlagsAreSingleBits` | core/user.hpp:19-31 | every enumerator other than `NONE` has exactly one bit set |
| `Users.NamedFlagsDistinct` | core/user.hpp:18-31 | the fourteen flag constants (`NamedFlags`) have pairwise distinct values |
| `Users.NamedFlagsDisjoint` | core/user.hpp:18-31 | two distinct enumerators masked with `&` give `NONE` |
| `Users.Combine` | core/user.hpp:68-71 | the left-to-right OR of a sequence of flags covers every flag in it |
| `Users.CombineLeast` | core/user.hpp:68-71 | that combination is the least mask covering every flag in the sequence |
| `Users.CombineTest` | core/user.hpp:18-31 | for a combination of enumerators and a named flag `f` other than `NONE`, `combination & f != NONE` holds iff `f` was one of the combined enumerators |
| `Users.PremiumType.ToInt` | core/user.hpp:38-43 | premium types have the values 0, 1 or 2 |
| `Users.PremiumTypeFromInt` | core/user.hpp:38-43 | a found premium type has the looked-up value |
| `Users.PremiumTypeRoundTrip` | core/user.hpp:38-43 | looking up a premium type's value gives that premium type back |
| `Users.PremiumTypeValues` | core/user.hpp:40-42 | a value names a premium type iff it is 0, 1 or 2 |
| `Users.DefaultUser` | core/user.hpp:49-64 | a default user has `bot`, `system`, `mfa_enabled` and `verified` false and empty strings; the uninitialised fields are the given values |
| `Messages.Embed.ToBool` | core/message.hpp:27-30 | no contract of its own; `EmbedTruthyIff` and `EmbedTruthIgnoresTypeAndUrl` state its meaning |
| `Messages.EmbedTruthyIff` | core/message.hpp:27-30 | an embed is truthy iff its title or its description is non-empty |
| `Messages.EmptyEmbedIsFalsy` | core/message.hpp:29 | an embed with empty title and empty description is falsy |
| `Messages.TitleOnlyEmbedIsTruthy` | core/message.hpp:25-29 | an embed with a title and no description is truthy |
| `Messages.DescriptionOnlyEmbedIsTruthy` | core/message.hpp:25-29 | an embed with a description and no title is truthy |
| `Messages.EmbedTruthIgnoresTypeAndUrl` | core/message.hpp:17-20 | changing an embed's type or url does not change its truthiness |
| `Messages.DefaultMessage` | core/message.hpp:37-51 | a default message has `tts` and `mention_everyone` false, empty strings and a default author |
| `Channels.ChannelType.ToInt` | core/channel.hpp:16-25 | channel types have values in 0..6 |
| `Channels.ChannelTypeFromInt` | core/channel.hpp:18-24 | a found channel type has the looked-up value |
| `Channels.ChannelTypeRoundTrip` | core/channel.hpp:18-24 | looking up a channel type's value gives that channel type back |
| `Channels.ChannelTypeToIntInjective` | core/channel.hpp:18-24 | distinct channel types have distinct values |
| `Channels.ChannelTypeValues` | core/channel.hpp:18-24 | a value names a channel type iff it is in 0..6 |
| `Channels.Channel.ToBool` | core/channel.hpp:69-72 | no contract of its own; `ChannelTruthyIff` and `ChannelTruthDependsOnIdOnly` state its meaning |
| `Channels.ChannelTruthyIff` | core/channel.hpp:69-72 | a channel is truthy iff its id is non-empty |
| `Channels.ChannelTruthDependsOnIdOnly` | core/channel.hpp:47-64 | two channels with the same id have the same truthiness, whatever their other fields |
| `Channels.DefaultChannel` | core/channel.hpp:45-73 | a default channel has position, bitrate, user limit and rate limit -1, `nsfw` false, empty strings and lists, and is falsy |
| `Gateway.GatewayOpcode.ToInt` | core/client.hpp:30-40 | every opcode's value is in 0..11 and is not 5 |
| `Gateway.OpcodeFromInt` | core/client.hpp:27-41 | a found opcode has the looked-up value |
| `Gateway.OpcodeRoundTrip` | core/client.hpp:30-40 | looking up an opcode's value gives that opcode back |
| `Gateway.OpcodeToIntInjective` | core/client.hpp:30-40 | the eleven opcodes have distinct values |
| `Gateway.OpcodeValues` | core/client.hpp:30-40 | a value names an opcode iff it is in 0..11 and is not 5; so 5, negative values and values above 11 give None |
| `Gateway.GatewayOpcode.Action` | core/client.hpp:29-40 | no contract of its own; with `Sendable` and `Receivable` it is the Client Action column, whose meaning the four lemmas below state |
| `Gateway.ReceiveOnlyOpcodes` | core/client.hpp:29-40 | DISPATCH, RECONNECT, INVALID_SESSION, HELLO and HEARTBEAT_ACK, and no others, are receive-only |
| `Gateway.SendOnlyOpcodes` | core/client.hpp:29-40 | IDENTIFY, PRESENCE_UPDATE, VOICE_STATE_UPDATE, RESUME and REQUEST_GUILD_MEMBERS, and no others, are send-only |
| `Gateway.BothWaysOpcodes` | core/client.hpp:29-40 | HEARTBEAT, and no other opcode, is both sent and received |
| `Gateway.EveryOpcodeHasDirection` | core/client.hpp:29-40 | every opcode is sendable or receivable |
| `Gateway.GatewayCloseEventCode.ToInt` | core/client.hpp:49-62 | every close code's value is in 4000..4014 and is not 4006 |
| `Gateway.CloseCodeFromInt` | core/client.hpp:47-63 | a found close code has the looked-up value |
| `Gateway.CloseCodeRoundTrip` | core/client.hpp:49-62 | looking up a close code's value gives that close code back |
| `Gateway.CloseCodeToIntInjective` | core/client.hpp:49-62 | the fourteen close codes have distinct values |
| `Gateway.CloseCodeValues` | core/client.hpp:49-62 | a value names a close code iff it is in 4000..4014 and is not 4006 |
| `Gateway.OpcodesAndCloseCodesDisjoint` | core/client.hpp:30-62 | no value is both an opcode and a close code |

## Left out

- The gateway session state machine, heartbeat monitor, reconnect and resume policy and the JSON payload codec: the repository's source does not implement them. `Client`'s constructor (core/client.cpp:18-23) only creates its transport handles, and the `stop()` and `exec()` that bot/main.cpp calls are not declared in core/client.hpp.
- `Client` itself, with its token and its WebSocket and HTTP client handles (core/client.hpp:65-68): foreign library objects and network I/O.
- bot/main.cpp: signal handlers, reading the token file and the process exit status are process and file I/O.
- core/utils/os.cpp and core/utils/os.hpp: a wrapper over the `uname` system call.
- Length and range limits that appear only in field comments (channel name 2-100 characters, topic 0-1024, rate limit 0-21600): the code does not enforce them, so the model does not either.
- The allow and deny bit sets of `ChannelPermissionOverwrite` have no operations in the source; the model keeps them as plain `Int32` fields.
- `PremiumTypeFromInt`, `ChannelTypeFromInt`, `OpcodeFromInt`, `CloseCodeFromInt`: C++ can `static_cast` any integer of the underlying type into these enumerations; the model represents only the listed enumerators and reports other values as None.
