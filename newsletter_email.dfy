/**
 * The "Get Email for Newsletter" script: from a personal address
 * `user@domain` and the host of the page being viewed, build the tagged
 * address `user+<host labels joined by '-'>@domain`, dropping a leading
 * label that is exactly `www`.
 *
 * The host is taken as a string; parsing the page URL is not modelled.
 */
module NewsletterEmail {
  import opened Text

  /** The text before the first `@`: the local part of the address. */
  function LocalPart(baseEmail: string): (user: string)
    ensures '@' !in user && user <= baseEmail
  {
    BeforeFirst(baseEmail, '@')
  }

  /** The text between the first and the second `@` (or the end). */
  function DomainPart(baseEmail: string): (domain: string)
    requires '@' in baseEmail
    ensures '@' !in domain
  {
    BeforeFirst(AfterFirst(baseEmail, '@'), '@')
  }

  /** Whether a host begins with a label that is exactly `www`. */
  predicate StartsWithWwwLabel(host: string)
  {
    host == "www" || (|host| >= 4 && host[..4] == "www.")
  }

  /**
   * The tag as one would describe it without splitting: the host with every
   * `.` turned into `-`, after removing a leading `www.` (or all of a host
   * that is just `www`).
   */
  function ExpectedTag(host: string): (tag: string)
    ensures '.' !in tag
  {
    if host == "www" then ""
    else if StartsWithWwwLabel(host) then ReplaceChar(host[4..], '.', '-')
    else ReplaceChar(host, '.', '-')
  }

  /** The host's labels, with the first dropped when it is exactly `www`. */
  function SiteLabels(host: string): (labels: seq<string>)
    ensures forall i :: 0 <= i < |labels| ==> '.' !in labels[i]
    ensures |labels| == 0 <==> host == "www"
  {
    var domain := Split(host, '.');
    if '.' !in host then SplitNoSep(host, '.'); (if domain[0] == "www" then domain[1..] else domain)
    else if domain[0] == "www" then domain[1..] else domain
  }

  /**
   * `createEmailWithDomain`: split the address on `@`, keep the first two
   * parts, and put the joined labels between them after a `+`.
   */
  function CreateEmailWithDomain(baseEmail: string, host: string): (email: string)
    requires '@' in baseEmail
    ensures email == LocalPart(baseEmail) + "+" + ExpectedTag(host) + "@" + DomainPart(baseEmail)
  {
    AddressSplit(baseEmail);
    TagMatchesExpected(host);
    var address := Split(baseEmail, '@');
    var emailUser := address[0];
    var emailDomain := address[1];
    emailUser + "+" + Join(SiteLabels(host), '-') + "@" + emailDomain
  }

  /** The first two parts of `baseEmail.split('@')` are the local part and the domain part. */
  lemma AddressSplit(baseEmail: string)
    requires '@' in baseEmail
    ensures |Split(baseEmail, '@')| >= 2
    ensures Split(baseEmail, '@')[0] == LocalPart(baseEmail)
    ensures Split(baseEmail, '@')[1] == DomainPart(baseEmail)
  {
    SplitFirst(baseEmail, '@');
    SplitRest(baseEmail, '@');
    SplitFirst(AfterFirst(baseEmail, '@'), '@');
  }

  /**
   * The first label is exactly `www` just when the host is `www` or begins
   * with `www.`; `www2`, `WWW` and a `www` further along do not qualify.
   */
  lemma FirstLabelIsWww(host: string)
    ensures Split(host, '.')[0] == "www" <==> StartsWithWwwLabel(host)
  {
    SplitFirst(host, '.');
    var first := BeforeFirst(host, '.');
    if StartsWithWwwLabel(host) && host != "www" {
      assert host[3] == '.' && host[..3] == "www";
      assert first == host[..3];
    }
    if first == "www" && host != "www" {
      assert host[..3] == "www";
    }
  }

  /** Joining the kept labels with `-` gives the expected tag. */
  lemma TagMatchesExpected(host: string)
    ensures Join(SiteLabels(host), '-') == ExpectedTag(host)
  {
    FirstLabelIsWww(host);
    var domain := Split(host, '.');
    if host == "www" {
      SplitNoSep(host, '.');
    } else if StartsWithWwwLabel(host) {
      SplitFirst(host, '.');
      SplitRest(host, '.');
      JoinSplitReplaces(host[4..], '.', '-');
    } else {
      JoinSplitReplaces(host, '.', '-');
    }
  }

  /** What follows the domain part: dropped by the destructuring of `split('@')`. */
  function Discarded(baseEmail: string): (rest: string)
    requires '@' in baseEmail
    ensures rest == "" || rest[0] == '@'
  {
    AfterFirst(baseEmail, '@')[|DomainPart(baseEmail)|..]
  }

  /**
   * The address is the local part, an `@`, and then the domain part followed
   * by a remainder that is empty or starts at a second `@`.
   */
  lemma {:induction false} AddressParts(baseEmail: string)
    requires '@' in baseEmail
    ensures baseEmail == LocalPart(baseEmail) + "@" + AfterFirst(baseEmail, '@')
    ensures AfterFirst(baseEmail, '@') == DomainPart(baseEmail) + Discarded(baseEmail)
  {
  }

  /** At most one label is removed: only the leading `www` of `www.www.a.com` goes. */
  lemma OnlyOneWwwDropped()
    ensures ExpectedTag("www.www.a.com") == "www-a-com"
  {
    assert StartsWithWwwLabel("www.www.a.com");
    assert "www.www.a.com"[4..] == "www.a.com";
    TagOfExample("www.a.com", "www-a-com");
  }

  /** A first label `www2` is not `www`, so it is kept. */
  lemma NumberedWwwKept()
    ensures ExpectedTag("www2.a.com") == "www2-a-com"
  {
    assert !StartsWithWwwLabel("www2.a.com") by { assert "www2.a.com"[3] == '2'; }
    TagOfExample("www2.a.com", "www2-a-com");
  }

  /** The comparison is case-sensitive: `WWW` is kept. */
  lemma UpperCaseWwwKept()
    ensures ExpectedTag("WWW.a.com") == "WWW-a-com"
  {
    assert !StartsWithWwwLabel("WWW.a.com") by { assert "WWW.a.com"[0] == 'W'; }
    TagOfExample("WWW.a.com", "WWW-a-com");
  }

  /** Only the first label is looked at: a later `www` is kept. */
  lemma InnerWwwKept()
    ensures ExpectedTag("a.www.com") == "a-www-com"
  {
    assert !StartsWithWwwLabel("a.www.com") by { assert "a.www.com"[0] == 'a'; }
    TagOfExample("a.www.com", "a-www-com");
  }

  lemma TagOfExample(host: string, tag: string)
    requires |host| == |tag|
    requires forall i :: 0 <= i < |host| ==> tag[i] == if host[i] == '.' then '-' else host[i]
    ensures ReplaceChar(host, '.', '-') == tag
  {
  }

  /** A host that is just `www` gives an empty tag. */
  lemma BareWwwHostGivesEmptyTag(baseEmail: string)
    requires '@' in baseEmail
    ensures CreateEmailWithDomain(baseEmail, "www") == LocalPart(baseEmail) + "+@" + DomainPart(baseEmail)
  {
  }
}
