# dnscrypt-wrapper start-up address handling, in Dafny

dnscrypt-wrapper is a proxy that adds DNSCrypt to an ordinary DNS resolver.
Its `main.c` reads two address texts from the command line, the resolver
address and an optional listen address, and turns each into a socket address
before the event loop starts. This project models that start-up logic:

- `sockaddr_from_ip_and_port` (module `AddressParsing`). It classifies an
  address text by a leading `[`, a first `:` and a second `:`. From that it
  decides whether to offer the text to the event library's socket-address
  parser unchanged. If that is not done, or the parse fails, it parses a
  candidate `ip:port` or `[ip]:port` built with a default port. It reports
  the outcome as a return code (0 or -1) and an output length.
- `context_init` (module `Startup`). It fills the context with its defaults,
  then converts the resolver address and then the local address, each with
  default port `53`, and returns -1 at the first failure.
- The C library routines these rely on (module `CStrings`): `*ip`, `strchr`
  and `snprintf` into a fixed-size buffer. The buffer holds
  `INET6_ADDRSTRLEN + sizeof "[]:65535"` = 46 + 9 = 55 bytes, so a candidate
  keeps at most 54 bytes.

The event library's `evutil_parse_sockaddr_port` is not part of this model.
Every operation takes it as a parameter `parse`: any function from a text to
either a parsed address with its length, or nothing for a non-zero return.
The model's results also carry `tried`, the list of texts handed to `parse`,
in call order. Lemmas use it to state which texts were parsed and in what
order. Strings are C strings: `CString` is a `seq<char>` whose characters each
stand for one byte (code below 256) and which holds no NUL, so lengths and
the buffer cut are counted in bytes, as in C.

## Model

| member | source | states |
|---|---|---|
| CStrings.Deref | main.c:35 | `*ip` is the first character, and is NUL exactly for the empty string |
| CStrings.Find | main.c:37-39 | `strchr` finds the first occurrence at or after the start position; a NULL result means no occurrence there |
| CStrings.Snprintf | main.c:50-55 | the formatted text is kept whole when shorter than the buffer, otherwise cut to a prefix of buffer size minus one |
| AddressParsing.Classify | main.c:33-42 | `has_brackets` iff the text starts with `[`; `has_column` iff it contains a `:`; `has_columns` iff `:` occurs at two positions |
| AddressParsing.ShapeCountsColons | main.c:37-44 | the flags mean at least one and at least two colons, so `has_column != has_columns` means exactly one colon |
| AddressParsing.Candidate | main.c:30-30 | the fallback text always fits the 55-byte buffer with its NUL (at most 54 bytes) |
| AddressParsing.SockaddrFromIpAndPort | main.c:24-67 | return code is 0 or -1; 0 exactly when some text handed to the parser parsed, and then the address and length are the last parse's; -1 leaves length 0; at most two parses, and a second only after the unchanged input failed |
| AddressParsing.DirectAttemptIff | main.c:44-46 | the input is parsed unchanged exactly when it starts with `[` or has exactly one colon; otherwise only the candidate is parsed |
| AddressParsing.DirectParseSucceeds | main.c:44-48 | a successful direct parse returns 0 with the parser's address and length and makes no second parse |
| AddressParsing.CandidateFormat | main.c:50-55 | the candidate is `[ip]:port` for an unbracketed text with two or more colons and `ip:port` otherwise: the whole text when it fits the buffer, else exactly its first 54 bytes |
| AddressParsing.FallbackOutcome | main.c:56-66 | after the fallback, the candidate alone decides: -1 with length 0 if it does not parse, 0 with the parser's length if it does |
| AddressParsing.SucceedsIff | main.c:44-66 | success holds exactly when the direct parse was attempted and succeeded, or the candidate parsed |
| Startup.ContextInit | main.c:69-100 | defaults: resolver text as given, local text the listen address if given else `0.0.0.0:53`, both handles -1, 250 connections, TCP-only off; a failed event loop returns -1 before any parse; 0 exactly when the loop exists and both conversions with port `53` succeed, and then the stored resolver and local addresses and lengths are those the two conversions produced |
| Startup.ResolverBeforeLocal | main.c:85-99 | the resolver's parses come first; after a resolver failure the result is -1, the local address is never parsed and its length stays zero; otherwise the local parses follow and the stored local address and length are the local conversion's |
| Startup.DefaultLocalTriedAsIs | main.c:74-95 | with no listen address, `0.0.0.0:53` is parsed unchanged right after the resolver's parses |
| Startup.ResolverGetsDefaultPort | main.c:85-90 | a resolver address with no bracket and no colon is first parsed as the address followed by `:53`, cut to the 54-byte buffer (whole when it fits); if that fails, start-up returns -1 with no other parse |

## Left out

- `evutil_parse_sockaddr_port` (main.c:45, main.c:57): the event library's parser is not part of this model. It is the parameter `parse`. Its in/out length argument, reset to `sizeof *sockaddr` before each call, is not modelled.
- A failed parse may leave partial data in the `sockaddr` buffer; the model records no address after a failed conversion.
- Logging of the failed candidate and of start-up errors (main.c:59, main.c:81, main.c:116, main.c:125): output only.
- Event-loop creation (main.c:80-83) is the boolean parameter `eventLoopCreated`; the loop itself and its dispatch (main.c:129) are left out.
- Command-line parsing, the usage message and `exit(0)` when `--resolver-address` is missing (main.c:107-113): a foreign library and process exit. Because `main` exits first, `context_init` is modelled only with a resolver address present.
- Binding and starting the UDP listener (main.c:120-127): socket I/O in files that are not part of this model.
- The DNSCrypt protocol engine (certificates, cryptography, sessions, UDP/TCP relay): its source files are not part of this model.
