/**
 * The two pieces of text a VO test produces before talking to the
 * Infrastructure Manager: the auth file and the TOSCA template.
 */
module VoMonText {
  import opened Text

  /** First line of the auth file: the Infrastructure Manager identity. */
  function ImAuthLine(token: string): string
  {
    "id = im; " + "type = InfrastructureManager; " + "token = " + token
  }

  /** Second line of the auth file: the EGI identity bound to site and VO. */
  function EgiAuthLine(site: string, vo: string, token: string): string
  {
    "id = egi; type = EGI; host = " + site + "; vo = " + vo + "; token = " + token
  }

  /** What `create_auth_file` writes: each line followed by a newline. */
  function AuthFileContent(token: string, site: string, vo: string): string
  {
    ImAuthLine(token) + "\n" + EgiAuthLine(site, vo, token) + "\n"
  }

  /** `n` blanks. */
  function Spaces(n: nat): (r: string)
    ensures |r| == n && forall c :: c in r ==> c == ' '
  {
    seq(n, _ => ' ')
  }

  /** One template line: indentation, text, newline. */
  function Indented(n: nat, text: string): (r: string)
    ensures forall c :: c in r ==> c == ' ' || c == '\n' || c in text
  {
    Spaces(n) + text + "\n"
  }

  // The template of `create_vm_tosca_template`, line by line, in groups
  // small enough for the verifier to inspect character by character.

  const CustomTypesUrl: string :=
    "https://raw.githubusercontent.com" + "/grycap/tosca/main/custom_types.yaml"

  const Preamble: string :=
      Indented(12, "tosca_definitions_version: " + "tosca_simple_yaml_1_0")
    + Indented(12, "imports:")

  const ImportLine: string :=
    Indented(12, "- grycap_custom_types: " + CustomTypesUrl)

  const NodeHeader: string :=
      Indented(12, "topology_template:")
    + Indented(14, "node_templates:")
    + Indented(16, "simple_node:")
    + Indented(18, "type: tosca.nodes.indigo.Compute")

  const NodeEndpoint: string :=
      Indented(18, "capabilities:")
    + Indented(20, "endpoint:")
    + Indented(22, "properties:")
    + Indented(24, "network_name: PUBLIC")

  const NodeHost: string :=
      Indented(20, "host:")
    + Indented(22, "properties:")
    + Indented(24, "num_cpus: 2")
    + Indented(24, "mem_size: 4 GB")

  const NodeOs: string :=
      Indented(20, "os:")
    + Indented(22, "properties:")

  const OutputNodeIp: string :=
      Indented(14, "outputs:")
    + Indented(16, "node_ip:")
    + Indented(18, "value: { get_attribute: [ simple_node, " + "public_address, 0 ] }")

  const OutputNodeCreds: string :=
      Indented(16, "node_creds:")
    + Indented(18, "value: { get_attribute: [ simple_node, " + "endpoint, credential, 0 ] }")

  /** The template up to the image reference. */
  const TemplateIntro: string :=
    "\n" + Preamble + ImportLine + NodeHeader + NodeEndpoint + NodeHost + NodeOs
    + Spaces(24) + "image: "

  /** Everything of the template before the site placeholder. */
  const TemplateHead: string := TemplateIntro + "appdb://"

  /** Between the site and the VO placeholders: the image name. */
  const ImageName: string := "/egi.ubuntu.24.04?"

  /** Everything of the template after the VO placeholder. */
  const TemplateTail: string := "\n" + OutputNodeIp + OutputNodeCreds + Spaces(8)

  const SitePlaceholder: string := "SITE"
  const VoPlaceholder: string := "VO"

  /** The template text as it stands in `create_vm_tosca_template`. */
  const ToscaTemplate: string :=
    TemplateHead + SitePlaceholder + ImageName + VoPlaceholder + TemplateTail

  /** `inf_desc.replace("SITE", site).replace("VO", vo)`. */
  function RenderTemplate(site: string, vo: string): string
  {
    Replace(Replace(ToscaTemplate, SitePlaceholder, site), VoPlaceholder, vo)
  }

  /** The catalogue reference the rendered template asks the site for. */
  function ImageReference(site: string, vo: string): string
  {
    "appdb://" + site + ImageName + vo
  }

  // ---------------------------------------------------------------------
  // Properties

  lemma ImAuthLineSingle(token: string)
    requires '\n' !in token
    ensures '\n' !in ImAuthLine(token)
  {}

  lemma EgiAuthLineSingle(site: string, vo: string, token: string)
    requires '\n' !in token && '\n' !in site && '\n' !in vo
    ensures '\n' !in EgiAuthLine(site, vo, token)
  {}

  /**
   * When none of its parts holds a newline, the auth file consists of
   * exactly the two identity lines, in this order.
   */
  lemma AuthFileHasTwoLines(token: string, site: string, vo: string)
    requires '\n' !in token && '\n' !in site && '\n' !in vo
    ensures Lines(AuthFileContent(token, site, vo)) == [ImAuthLine(token), EgiAuthLine(site, vo, token)]
  {
    ImAuthLineSingle(token);
    EgiAuthLineSingle(site, vo, token);
    LinesOfTwo(ImAuthLine(token), EgiAuthLine(site, vo, token));
  }

  /** The first letters of the placeholders, which the fixed text never uses. */
  predicate PlaceholderStart(c: char)
  {
    c == SitePlaceholder[0] || c == VoPlaceholder[0]
  }

  // Facts about the fixed text only, not properties of the program: each
  // fixed piece of the template lacks each placeholder letter. They are
  // split one per (piece, letter) so that each proof stays small, and
  // `PiecesLack` below gathers them.
  lemma UrlLacksS() ensures 'S' !in CustomTypesUrl {}
  lemma UrlLacksV() ensures 'V' !in CustomTypesUrl {}
  lemma PreambleLacksS() ensures 'S' !in Preamble {}
  lemma PreambleLacksV() ensures 'V' !in Preamble {}
  lemma NodeHeaderLacksS() ensures 'S' !in NodeHeader {}
  lemma NodeHeaderLacksV() ensures 'V' !in NodeHeader {}
  lemma NodeEndpointLacksS() ensures 'S' !in NodeEndpoint {}
  lemma NodeEndpointLacksV() ensures 'V' !in NodeEndpoint {}
  lemma NodeHostLacksS() ensures 'S' !in NodeHost {}
  lemma NodeHostLacksV() ensures 'V' !in NodeHost {}
  lemma NodeOsLacksS() ensures 'S' !in NodeOs {}
  lemma NodeOsLacksV() ensures 'V' !in NodeOs {}
  lemma OutputNodeIpLacksS() ensures 'S' !in OutputNodeIp {}
  lemma OutputNodeIpLacksV() ensures 'V' !in OutputNodeIp {}
  lemma OutputNodeCredsLacksS() ensures 'S' !in OutputNodeCreds {}
  lemma OutputNodeCredsLacksV() ensures 'V' !in OutputNodeCreds {}

  lemma PiecesLack(c: char)
    requires PlaceholderStart(c)
    ensures c !in CustomTypesUrl
    ensures c !in Preamble
    ensures c !in NodeHeader
    ensures c !in NodeEndpoint
    ensures c !in NodeHost
    ensures c !in NodeOs
    ensures c !in OutputNodeIp
    ensures c !in OutputNodeCreds
  {
    if c == 'S' {
      UrlLacksS();
      PreambleLacksS();
      NodeHeaderLacksS();
      NodeEndpointLacksS();
      NodeHostLacksS();
      NodeOsLacksS();
      OutputNodeIpLacksS();
      OutputNodeCredsLacksS();
    } else {
      UrlLacksV();
      PreambleLacksV();
      NodeHeaderLacksV();
      NodeEndpointLacksV();
      NodeHostLacksV();
      NodeOsLacksV();
      OutputNodeIpLacksV();
      OutputNodeCredsLacksV();
    }
  }

  lemma IntroLacks(c: char)
    requires PlaceholderStart(c)
    ensures c !in TemplateIntro
  {
    PiecesLack(c);
  }

  lemma HeadLacks(c: char)
    requires PlaceholderStart(c)
    ensures c !in TemplateHead
  {
    IntroLacks(c);
  }

  lemma TailLacks(c: char)
    requires PlaceholderStart(c)
    ensures c !in TemplateTail && TemplateTail != [] && TemplateTail[0] == '\n'
  {
    PiecesLack(c);
  }

  lemma ImageNameLacks(c: char)
    requires PlaceholderStart(c)
    ensures c !in ImageName && ImageName != [] && ImageName[0] == '/'
  {}

  lemma IntroWithout(c: char)
    requires PlaceholderStart(c)
    ensures Without(TemplateIntro, c)
  {
    IntroLacks(c);
    WithoutSpec(TemplateIntro, c);
  }

  lemma TailWithout(c: char)
    requires PlaceholderStart(c)
    ensures Without(TemplateTail, c) && TemplateTail != [] && TemplateTail[0] == '\n'
  {
    TailLacks(c);
    WithoutSpec(TemplateTail, c);
  }

  /** The fixed text around the image reference holds no placeholder letter. */
  lemma FixedTextWithout()
    ensures TemplateHead == TemplateIntro + "appdb://"
    ensures Without(TemplateIntro, 'S') && Without(TemplateIntro, 'V')
    ensures Without(TemplateTail, 'S') && Without(TemplateTail, 'V')
    ensures TemplateTail != [] && TemplateTail[0] == '\n'
  {
    IntroWithout('S');
    IntroWithout('V');
    TailWithout('S');
    TailWithout('V');
  }

  /** The site placeholder of a template-shaped text is replaced by the site. */
  lemma SubstituteSite(head: string, rest: string, site: string)
    requires 'S' !in head && 'S' !in rest
    ensures Replace(head + SitePlaceholder + rest, SitePlaceholder, site) == head + site + rest
  {
    var t := SitePlaceholder + rest;
    assert head + SitePlaceholder + rest == head + t;
    ReplacePrefixNoStart(head, t, SitePlaceholder, site);
    ReplaceLeading(SitePlaceholder, rest, site);
  }

  /** Replacing "VO" after text that never starts it: the rest is rewritten. */
  lemma SubstituteVoAfter(mid: string, tail: string, vo: string)
    requires 'V' !in mid && 'V' !in tail
    ensures Replace(mid + (VoPlaceholder + tail), VoPlaceholder, vo) == mid + (vo + tail)
  {
    ReplacePrefixNoStart(mid, VoPlaceholder + tail, VoPlaceholder, vo);
    ReplaceLeading(VoPlaceholder, tail, vo);
  }

  /** Replacing "VO" in the site followed by text whose first letter cannot start "VO". */
  lemma SubstituteVoFromSite(site: string, mid: string, tail: string, vo: string)
    requires 'V' !in mid && 'V' !in tail
    requires mid != [] && mid[0] !in VoPlaceholder
    ensures Replace(site + (mid + (VoPlaceholder + tail)), VoPlaceholder, vo)
         == Replace(site, VoPlaceholder, vo) + (mid + (vo + tail))
  {
    var rest := mid + (VoPlaceholder + tail);
    assert rest[0] == mid[0];
    ReplaceConcat(site, rest, VoPlaceholder, vo);
    SubstituteVoAfter(mid, tail, vo);
  }

  /**
   * Replacing "VO" in a text holding the site and then the VO placeholder:
   * the site is rewritten too.
   */
  lemma SubstituteVo(head: string, site: string, mid: string, tail: string, vo: string)
    requires 'V' !in head && 'V' !in mid && 'V' !in tail
    requires mid != [] && mid[0] !in VoPlaceholder
    ensures Replace(head + site + mid + VoPlaceholder + tail, VoPlaceholder, vo)
         == head + Replace(site, VoPlaceholder, vo) + mid + vo + tail
  {
    var text := site + (mid + (VoPlaceholder + tail));
    RegroupFive(head, site, mid, VoPlaceholder, tail);
    ReplacePrefixNoStart(head, text, VoPlaceholder, vo);
    SubstituteVoFromSite(site, mid, tail, vo);
    RegroupFive(head, Replace(site, VoPlaceholder, vo), mid, vo, tail);
  }

  /**
   * Rendering a text of the template's shape, whose fixed parts hold no
   * placeholder letter: the site, in which every "VO" has been replaced by
   * the VO, and the VO take the placeholders' places.
   */
  lemma RenderShapeOf(head: string, mid: string, tail: string, site: string, vo: string)
    requires 'S' !in head && 'S' !in mid && 'S' !in tail
    requires 'V' !in head && 'V' !in mid && 'V' !in tail
    requires mid != [] && mid[0] !in VoPlaceholder
    ensures Replace(Replace(head + SitePlaceholder + mid + VoPlaceholder + tail, SitePlaceholder, site), VoPlaceholder, vo)
         == head + Replace(site, VoPlaceholder, vo) + mid + vo + tail
  {
    var rest := mid + VoPlaceholder + tail;
    assert head + SitePlaceholder + mid + VoPlaceholder + tail == head + SitePlaceholder + rest;
    SubstituteSite(head, rest, site);
    assert head + site + rest == head + site + mid + VoPlaceholder + tail;
    SubstituteVo(head, site, mid, tail, vo);
  }

  /**
   * What rendering produces for any site and VO: the fixed text with the
   * site, in which every "VO" has been replaced by the VO, and the VO.
   */
  lemma RenderShape(site: string, vo: string)
    ensures RenderTemplate(site, vo)
         == TemplateHead + Replace(site, VoPlaceholder, vo) + ImageName + vo + TemplateTail
  {
    HeadLacks('S');
    TailLacks('S');
    ImageNameLacks('S');
    HeadLacks('V');
    TailLacks('V');
    ImageNameLacks('V');
    RenderShapeOf(TemplateHead, ImageName, TemplateTail, site, vo);
  }

  /**
   * For a site free of "VO", the rendered template asks for the image
   * `appdb://<site>/egi.ubuntu.24.04?<vo>`.
   */
  lemma RenderedTemplateImage(site: string, vo: string)
    requires !Occurs(site, VoPlaceholder)
    ensures Occurs(RenderTemplate(site, vo), ImageReference(site, vo))
  {
    RenderShape(site, vo);
    FixedTextWithout();
    RenderedImageOf(TemplateIntro, TemplateHead, TemplateTail, site, vo, RenderTemplate(site, vo));
  }

  /** When neither name holds a placeholder, none is left in the rendered template. */
  lemma RenderedTemplateComplete(site: string, vo: string)
    requires !Occurs(site, SitePlaceholder) && !Occurs(site, VoPlaceholder)
    requires !Occurs(vo, SitePlaceholder) && !Occurs(vo, VoPlaceholder)
    ensures !Occurs(RenderTemplate(site, vo), SitePlaceholder)
    ensures !Occurs(RenderTemplate(site, vo), VoPlaceholder)
  {
    RenderShape(site, vo);
    FixedTextWithout();
    RenderedImageOf(TemplateIntro, TemplateHead, TemplateTail, site, vo, RenderTemplate(site, vo));
  }

  /** `RenderedTemplateImage` for any fixed text free of the placeholder letters. */
  lemma RenderedImageOf(intro: string, head: string, tail: string, site: string, vo: string, t: string)
    requires Without(intro, 'S') && Without(intro, 'V') && Without(tail, 'S') && Without(tail, 'V')
    requires tail != [] && tail[0] == '\n'
    requires !Occurs(site, VoPlaceholder)
    requires head == intro + "appdb://"
    requires t == head + Replace(site, VoPlaceholder, vo) + ImageName + vo + tail
    ensures Occurs(t, ImageReference(site, vo))
    ensures
      !Occurs(site, SitePlaceholder) && !Occurs(vo, SitePlaceholder) && !Occurs(vo, VoPlaceholder)
      ==> !Occurs(t, SitePlaceholder) && !Occurs(t, VoPlaceholder)
  {
    WithoutSpec(intro, 'S');
    WithoutSpec(intro, 'V');
    WithoutSpec(tail, 'S');
    WithoutSpec(tail, 'V');
    ReplaceAbsent(site, VoPlaceholder, vo);
    ImageOccurs(intro, site, vo, tail);
    if !Occurs(site, SitePlaceholder) && !Occurs(vo, SitePlaceholder) && !Occurs(vo, VoPlaceholder) {
      NoPlaceholderLeft(intro, site, vo, tail, SitePlaceholder);
      NoPlaceholderLeft(intro, site, vo, tail, VoPlaceholder);
    }
  }

  /** The image reference stands between the text before and after it. */
  lemma ImageOccurs(intro: string, site: string, vo: string, tail: string)
    ensures Occurs(intro + "appdb://" + site + ImageName + vo + tail, ImageReference(site, vo))
  {
    assert intro + "appdb://" + site + ImageName + vo + tail
        == intro + ImageReference(site, vo) + tail;
    OccursBetween(intro, ImageReference(site, vo), tail);
  }

  /**
   * Substituting names free of a placeholder into text free of its first
   * letter leaves no occurrence of that placeholder.
   */
  lemma NoPlaceholderLeft(intro: string, site: string, vo: string, tail: string, p: string)
    requires p == SitePlaceholder || p == VoPlaceholder
    requires p[0] !in intro && p[0] !in tail && tail != [] && tail[0] == '\n'
    requires !Occurs(site, p) && !Occurs(vo, p)
    ensures !Occurs(intro + "appdb://" + site + ImageName + vo + tail, p)
  {
    var head := intro + "appdb://";
    assert p[0] !in head;
    AbsentStart(head, p);
    AbsentStart(ImageName, p);
    AbsentStart(tail, p);
    AbsentConcat(vo, tail, p);
    AbsentConcat(ImageName, vo + tail, p);
    AbsentConcat(site, ImageName + (vo + tail), p);
    assert head[|head| - 1] == '/';
    AbsentConcat(head, site + (ImageName + (vo + tail)), p);
    assert intro + "appdb://" + site + ImageName + vo + tail
        == head + (site + (ImageName + (vo + tail)));
  }
}
