/** The fixed translation from the feed's indicator type names to CRITs
    indicator types (`get_indicator_mapping`). */
module IndicatorTypes {
  import opened Collections

  /** The CRITs indicator types the feed vocabulary is translated into. */
  datatype CritsType =
    | Sha256 | Sha1 | Uri | Domain | Ipv4Address | Ipv6Address
    | EmailAddress | FilePath | Md5 | Imphash | Ipv4Subnet | Mutex

  /** What the importer does with a feed type: create an indicator of a
      CRITs type, skip it because CRITs has no equivalent, or skip it as a
      type the table does not know. */
  datatype TypeMapping = Mapped(critsType: CritsType) | NoEquivalent | Unsupported

  /** The table as the source writes it: `None` marks a known type with no
      CRITs equivalent. */
  const MappingTable: map<string, Option<CritsType>> := map[
    "FileHash-SHA256" := Some(Sha256),
    "FileHash-SHA1" := Some(Sha1),
    "URI" := Some(Uri),
    "URL" := Some(Uri),
    "hostname" := Some(Domain),
    "domain" := Some(Domain),
    "IPv4" := Some(Ipv4Address),
    "IPv6" := Some(Ipv6Address),
    "email" := Some(EmailAddress),
    "Email" := Some(EmailAddress),
    "filepath" := Some(FilePath),
    "Filepath" := Some(FilePath),
    "FilePath" := Some(FilePath),
    "FileHash-MD5" := Some(Md5),
    "Imphash" := Some(Imphash),
    "PEhash" := None,
    "CIDR" := Some(Ipv4Subnet),
    "mutex" := Some(Mutex),
    "Mutex" := Some(Mutex),
    "CVE" := None,
    "Yara" := None
  ]

  /** Looks a feed type up: a key missing from the table is unsupported. */
  function MapType(feedType: string): TypeMapping
  {
    if feedType in MappingTable then
      match MappingTable[feedType]
      case None => NoEquivalent
      case Some(t) => Mapped(t)
    else Unsupported
  }

  /** The feed type names the importer knows about. */
  const FeedVocabulary: set<string> := {
    "FileHash-SHA256", "FileHash-SHA1", "URI", "URL", "hostname", "domain",
    "IPv4", "IPv6", "email", "Email", "filepath", "Filepath", "FilePath",
    "FileHash-MD5", "Imphash", "PEhash", "CIDR", "mutex", "Mutex", "CVE", "Yara"
  }

  /** The feed names the table maps to a CRITs type: the table read
      backwards. */
  function FeedNames(t: CritsType): set<string>
  {
    match t
    case Sha256 => {"FileHash-SHA256"}
    case Sha1 => {"FileHash-SHA1"}
    case Uri => {"URI", "URL"}
    case Domain => {"hostname", "domain"}
    case Ipv4Address => {"IPv4"}
    case Ipv6Address => {"IPv6"}
    case EmailAddress => {"email", "Email"}
    case FilePath => {"filepath", "Filepath", "FilePath"}
    case Md5 => {"FileHash-MD5"}
    case Imphash => {"Imphash"}
    case Ipv4Subnet => {"CIDR"}
    case Mutex => {"mutex", "Mutex"}
  }

  /** The lookup and the backwards table agree: a feed name maps to `t`
      exactly when it is one of `t`'s names. */
  lemma MappedExactly(feedType: string, t: CritsType)
    ensures MapType(feedType) == Mapped(t) <==> feedType in FeedNames(t)
  {
    if feedType in FeedNames(t) {
      assert feedType in MappingTable && MappingTable[feedType] == Some(t);
    } else if feedType in MappingTable && MappingTable[feedType].Some? {
      assert MappingTable[feedType].value != t;
    }
  }

  /** Groups of feed names that stand for the same CRITs type. */
  ghost predicate Synonyms(a: string, b: string)
  {
    || ({a, b} <= {"URI", "URL"})
    || ({a, b} <= {"hostname", "domain"})
    || ({a, b} <= {"email", "Email"})
    || ({a, b} <= {"filepath", "Filepath", "FilePath"})
    || ({a, b} <= {"mutex", "Mutex"})
  }

  lemma SynonymsShareType()
    ensures MapType("URI") == MapType("URL") == Mapped(Uri)
    ensures MapType("hostname") == MapType("domain") == Mapped(Domain)
    ensures MapType("email") == MapType("Email") == Mapped(EmailAddress)
    ensures MapType("filepath") == MapType("Filepath") == MapType("FilePath") == Mapped(FilePath)
    ensures MapType("mutex") == MapType("Mutex") == Mapped(Mutex)
  {
  }

  /** Two different feed names give the same CRITs type exactly when they
      are synonyms: the table maps no two unrelated names together. */
  lemma SameTypeExactlyForSynonyms(a: string, b: string)
    requires a != b
    ensures (MapType(a).Mapped? && MapType(a) == MapType(b)) <==> Synonyms(a, b)
  {
    if Synonyms(a, b) {
      SynonymsShareType();
    } else if MapType(a).Mapped? {
      var t := MapType(a).critsType;
      MappedExactly(a, t);
      MappedExactly(b, t);
    }
  }

  /** Exactly the PE hash, CVE and Yara types have no CRITs equivalent. */
  lemma NoEquivalentExactly(feedType: string)
    ensures MapType(feedType) == NoEquivalent <==> feedType in {"PEhash", "CVE", "Yara"}
  {
  }

  /** A feed type is unsupported exactly when it is not in the vocabulary. */
  lemma UnsupportedExactly(feedType: string)
    ensures MapType(feedType) == Unsupported <==> feedType !in FeedVocabulary
  {
    assert MappingTable.Keys == FeedVocabulary;
  }
}
