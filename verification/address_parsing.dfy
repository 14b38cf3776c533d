/** `sockaddr_from_ip_and_port` of main.c: turns an address text such as
    `1.2.3.4`, `1.2.3.4:5353`, `::1` or `[::1]:53` into a socket address,
    supplying a default port when the text carries none.

    The event library's `evutil_parse_sockaddr_port` is not part of this model:
    it is a parameter `parse` of type `Parser`, any function from a text to
    either a parsed address with its length or nothing. Every text handed to
    it is recorded, in order, in the `tried` field of the result. */
module AddressParsing {
  import opened Wrappers
  import opened CStrings

  /** `INET6_ADDRSTRLEN`: room for the longest IPv6 text and its NUL. */
  const Inet6AddrStrLen: nat := 46

  /** `sizeof sockaddr_port`: `INET6_ADDRSTRLEN + sizeof "[]:65535"`, where the
      `sizeof` of the literal counts its 8 characters and the NUL. */
  const CandidateBufferSize: nat := Inet6AddrStrLen + |"[]:65535"| + 1

  /** What the parser writes back on success: the socket address and the
      length it reports for it. */
  datatype Parsed<A> = Parsed(addr: A, len: nat)

  /** The event library's socket-address parser: None stands for its non-zero
      return code. */
  type Parser<A> = CString -> Option<Parsed<A>>

  /** The three flags computed from the input text. */
  datatype Shape = Shape(hasBrackets: bool, hasColumn: bool, hasColumns: bool)

  /** The outcome of one conversion: the return code (0 or -1), the length
      written through `sockaddr_len_p`, the address on success, and the texts
      given to the parser, in call order. */
  datatype Conversion<A> = Conversion(status: int, len: nat, sockaddr: Option<A>, tried: seq<CString>)

  /** The text starts with `[`. */
  predicate StartsWithBracket(ip: CString)
  {
    |ip| > 0 && ip[0] == '['
  }

  /** `has_brackets` compares `*ip` with `[`; `has_column` is set when `strchr`
      finds a `:`, and `has_columns` when a second `strchr` past that first
      colon finds another. */
  function Classify(ip: CString): (k: Shape)
    ensures k.hasBrackets <==> StartsWithBracket(ip)
    ensures k.hasColumn <==> ':' in ip
    ensures k.hasColumns <==> OccursTwice(ip, ':')
    ensures k.hasColumns ==> k.hasColumn
  {
    var hasBrackets := Deref(ip) == '[';
    match Find(ip, ':', 0)
    case None => Shape(hasBrackets, false, false)
    case Some(p) => Shape(hasBrackets, true, Find(ip, ':', p + 1).Some?)
  }

  /** The input is offered to the parser unchanged when it has brackets or
      when `has_column != has_columns`. */
  predicate TriesDirect(k: Shape)
  {
    k.hasBrackets || k.hasColumn != k.hasColumns
  }

  /** The fallback text: `[ip]:port` for an unbracketed text with two or more
      colons, `ip:port` otherwise, cut to the fixed buffer. */
  function Candidate(ip: CString, port: CString, k: Shape): (cand: CString)
    ensures |cand| < CandidateBufferSize
  {
    var text: CString :=
      if k.hasColumns && !k.hasBrackets then "[" + ip + "]:" + port else ip + ":" + port;
    Snprintf(CandidateBufferSize, text)
  }

  /** The whole conversion: a direct parse of the input when its shape allows
      one, then, if that was not attempted or failed, a parse of the candidate
      built with the default port. */
  function SockaddrFromIpAndPort<A>(parse: Parser<A>, ip: CString, port: CString): (r: Conversion<A>)
    ensures r.status == 0 || r.status == -1
    ensures r.status == 0 <==> r.sockaddr.Some?
    ensures r.status == -1 ==> r.len == 0
    ensures 1 <= |r.tried| <= 2
    ensures r.status == 0 <==> exists t :: t in r.tried && parse(t).Some?
    ensures r.status == 0 ==> parse(r.tried[|r.tried| - 1]) == Some(Parsed(r.sockaddr.value, r.len))
    ensures |r.tried| == 2 ==> r.tried[0] == ip && parse(ip).None?
  {
    var k := Classify(ip);
    if TriesDirect(k) && parse(ip).Some? then
      Conversion(0, parse(ip).value.len, Some(parse(ip).value.addr), [ip])
    else
      var direct := if TriesDirect(k) then [ip] else [];
      var cand := Candidate(ip, port, k);
      match parse(cand)
      case None => Conversion(-1, 0, None, direct + [cand])
      case Some(p) => Conversion(0, p.len, Some(p.addr), direct + [cand])
  }

  /** The shape test in terms of colon counts: `has_column` means at least one
      colon, `has_columns` at least two, so `has_column != has_columns` means
      exactly one. */
  lemma ShapeCountsColons(ip: CString)
    ensures Classify(ip).hasColumn <==> Count(ip, ':') >= 1
    ensures Classify(ip).hasColumns <==> Count(ip, ':') >= 2
    ensures Classify(ip).hasColumn != Classify(ip).hasColumns <==> Count(ip, ':') == 1
  {
    CountAtLeastOne(ip, ':');
    CountAtLeastTwo(ip, ':');
  }

  /** The input is handed to the parser unchanged exactly when it starts with
      `[` or holds exactly one colon; otherwise the parser sees only the
      candidate. */
  lemma DirectAttemptIff<A>(parse: Parser<A>, ip: CString, port: CString)
    ensures TriesDirect(Classify(ip)) <==> StartsWithBracket(ip) || Count(ip, ':') == 1
    ensures TriesDirect(Classify(ip)) ==> SockaddrFromIpAndPort(parse, ip, port).tried[0] == ip
    ensures !TriesDirect(Classify(ip)) ==>
      SockaddrFromIpAndPort(parse, ip, port).tried == [Candidate(ip, port, Classify(ip))]
  {
    ShapeCountsColons(ip);
  }

  /** A direct parse that succeeds ends the conversion: return code 0, the
      parser's address and length, and no second parse. */
  lemma DirectParseSucceeds<A>(parse: Parser<A>, ip: CString, port: CString, p: Parsed<A>)
    requires StartsWithBracket(ip) || Count(ip, ':') == 1
    requires parse(ip) == Some(p)
    ensures SockaddrFromIpAndPort(parse, ip, port) == Conversion(0, p.len, Some(p.addr), [ip])
  {
    ShapeCountsColons(ip);
  }

  /** The candidate is `[ip]:port` for an unbracketed text with two or more
      colons and `ip:port` otherwise: the whole of it when it fits the buffer,
      else its first `CandidateBufferSize - 1` bytes. */
  lemma CandidateFormat(ip: CString, port: CString)
    ensures var full := if Count(ip, ':') >= 2 && !StartsWithBracket(ip)
                        then "[" + ip + "]:" + port else ip + ":" + port;
            var cand := Candidate(ip, port, Classify(ip));
            && cand <= full
            && (|full| < CandidateBufferSize ==> cand == full)
            && (|full| >= CandidateBufferSize ==> cand == full[..CandidateBufferSize - 1])
  {
    ShapeCountsColons(ip);
  }

  /** Once the direct parse is skipped or fails, the outcome is decided by the
      candidate alone: -1 and length 0 when it does not parse, 0 and the
      parser's length when it does. */
  lemma FallbackOutcome<A>(parse: Parser<A>, ip: CString, port: CString)
    requires !(TriesDirect(Classify(ip)) && parse(ip).Some?)
    ensures var r := SockaddrFromIpAndPort(parse, ip, port);
            var cand := Candidate(ip, port, Classify(ip));
            && r.tried[|r.tried| - 1] == cand
            && (parse(cand).None? ==> r.status == -1 && r.len == 0 && r.sockaddr.None?)
            && (parse(cand).Some? ==>
                  r.status == 0 && r.len == parse(cand).value.len && r.sockaddr == Some(parse(cand).value.addr))
  {
  }

  /** The conversion succeeds exactly when the direct parse was attempted and
      succeeded, or the candidate parsed; no other path returns 0. */
  lemma SucceedsIff<A>(parse: Parser<A>, ip: CString, port: CString)
    ensures SockaddrFromIpAndPort(parse, ip, port).status == 0 <==>
      ((StartsWithBracket(ip) || Count(ip, ':') == 1) && parse(ip).Some?)
      || parse(Candidate(ip, port, Classify(ip))).Some?
  {
    ShapeCountsColons(ip);
  }
}
