/**
 * The role-aware system-prompt builder: a total, pure function from an
 * assistant mode and a (possibly missing or malformed) player role to the
 * system prompt sent with every chat turn.
 */
module PromptUtils {
  import opened Wrappers
  import opened Text
  import Modes

  /** The rules of the Beer Distribution Game, common to every mode and role. */
  const BASE_GAME_RULES :=
    "You are a supply chain agent helping me play a role-playing game.\n"
    + "The game has four players: retailer / wholesaler / distributor / factory.\n"
    + "All physical lead times are 2 weeks, except factory which has a 1 week lead time with the plant.\n"
    + "All information lag lead times are 2 weeks, except factory which has a 1 week information lag lead time with the plant.\n"
    + "The holding cost is $0.5 per case per week and the backorder cost is $1 per case per week.\n"
    + "There is a steady demand of 4 cases each week, so the pipeline is fully loaded with 4 cases at every stage.\n"
    + "The starting inventory position is 12 cases.\n"
    + "Each week the user will give you the downstream customer\U{2019}s demand.\n"
    + "You will tell the user your recommended order quantity.\n"
    + "The user can override your recommendation."

  const QUALITATIVE_EXTRA :=
    "Mode: Qualitative Coach.\n"
    + "Focus on intuition, system dynamics, bullwhip effect, and decision rationale.\n"
    + "Be concise and classroom-friendly."

  const QUANTITATIVE_EXTRA :=
    "Mode: Quantitative Coach.\n"
    + "Show step-by-step calculations and clearly label inventory, pipeline, backorders, and costs.\n"
    + "Be concise and classroom-friendly."

  const VALID_ROLES := ["Retailer", "Wholesaler", "Distributor", "Factory"]

  const DEFAULT_ROLE := "Retailer"

  /** Separator between the three blocks of the prompt. */
  const BLOCK_SEPARATOR := "\n\n"

  /** The text of the role block that precedes the role's name. */
  const ROLE_LINE_LEAD := "The user is playing the role of the **"

  /** The text of the role block that follows the role's name; it does not depend on the role. */
  const ROLE_BLOCK_REST := ROLE_NAME_CLOSE + ROLE_ADVICE + DEMAND_SIGNALS

  /** The bold marker and full stop that close the role's name. */
  const ROLE_NAME_CLOSE := "**."

  /** The advice lines between the role's name and the demand-signal listing. */
  const ROLE_ADVICE :=
    "\n"
    + "Always answer from the perspective of advising that role.\n"
    + "Use the correct downstream demand signal for that role:\n"

  /** The fixed role-to-demand-signal listing at the end of every role block. */
  const DEMAND_SIGNALS :=
    "- Retailer: customer demand\n"
    + "- Wholesaler: retailer orders (as demand)\n"
    + "- Distributor: wholesaler orders (as demand)\n"
    + "- Factory: distributor orders (as demand)"

  /**
   * The role the prompt is written for: the argument with surrounding
   * whitespace removed when that is one of the four roles, and the
   * Retailer otherwise (an absent role reads as the empty string).
   */
  function NormalizeRole(playerRole: Option<string>): (role: string)
    ensures role in VALID_ROLES
  {
    var role := Strip(playerRole.GetOr(""));
    if role in VALID_ROLES then role else DEFAULT_ROLE
  }

  /** The role block, with its surrounding newlines already stripped. */
  function RoleBlock(role: string): string {
    ROLE_LINE_LEAD + role + ROLE_BLOCK_REST
  }

  /**
   * The role block names the role in bold on its first line, the name can be
   * read back from it at a fixed position, and it always closes with the
   * role-to-demand-signal listing.
   */
  lemma RoleBlockNamesRole(role: string)
    ensures ROLE_LINE_LEAD + role + ROLE_NAME_CLOSE <= RoleBlock(role)
    ensures RoleBlock(role)[|ROLE_LINE_LEAD|..|ROLE_LINE_LEAD| + |role|] == role
    ensures |RoleBlock(role)| >= |DEMAND_SIGNALS|
    ensures RoleBlock(role)[|RoleBlock(role)| - |DEMAND_SIGNALS|..] == DEMAND_SIGNALS
  {
    NamedBetween(ROLE_LINE_LEAD, role, ROLE_NAME_CLOSE, ROLE_ADVICE, DEMAND_SIGNALS);
  }

  /** The mode block: quantitative coaching only for the exact quantitative key. */
  function ModeExtra(mode: string): (extra: string)
    ensures extra == QUANTITATIVE_EXTRA <==> mode == Modes.QUANTITATIVE_MODE
    ensures extra == QUALITATIVE_EXTRA <==> mode != Modes.QUANTITATIVE_MODE
  {
    ExtrasDiffer();
    if mode == Modes.QUANTITATIVE_MODE then QUANTITATIVE_EXTRA else QUALITATIVE_EXTRA
  }

  lemma ExtrasDiffer()
    ensures QUALITATIVE_EXTRA != QUANTITATIVE_EXTRA
  {
    assert QUALITATIVE_EXTRA[9] == 'l' && QUANTITATIVE_EXTRA[9] == 'n';
  }

  /**
   * `build_beergame_prompt`: for every mode and role, the base rules, a
   * blank line, the block naming the normalized role, a blank line and the
   * mode's block, in that order and nothing else.
   */
  function BuildBeerGamePrompt(mode: string, playerRole: Option<string>): (prompt: string)
    ensures prompt == BASE_GAME_RULES + BLOCK_SEPARATOR + RoleBlock(NormalizeRole(playerRole))
                      + BLOCK_SEPARATOR + ModeExtra(mode)
  {
    var block := RoleBlock(NormalizeRole(playerRole));
    var extra := ModeExtra(mode);
    JoinThree(BLOCK_SEPARATOR, BASE_GAME_RULES, block, extra);
    JoinWith(BLOCK_SEPARATOR, [BASE_GAME_RULES, block, extra])
  }

  // Properties of the builder

  /** Whatever the mode and the role, the prompt opens with the base rules followed by a blank line. */
  lemma PromptStartsWithBaseRules(mode: string, playerRole: Option<string>)
    ensures BASE_GAME_RULES + BLOCK_SEPARATOR <= BuildBeerGamePrompt(mode, playerRole)
  {
    var block := RoleBlock(NormalizeRole(playerRole));
    Regroup(BASE_GAME_RULES, BLOCK_SEPARATOR, block, BLOCK_SEPARATOR, ModeExtra(mode));
    ThreeParts(BASE_GAME_RULES + BLOCK_SEPARATOR, block, BLOCK_SEPARATOR + ModeExtra(mode));
  }

  /** The prompt ends with a blank line and the mode block that the mode selects. */
  lemma PromptEndsWithModeBlock(mode: string, playerRole: Option<string>)
    ensures var p := BuildBeerGamePrompt(mode, playerRole);
            var tail := BLOCK_SEPARATOR + ModeExtra(mode);
            |tail| <= |p| && p[|p| - |tail|..] == tail
  {
    var block := RoleBlock(NormalizeRole(playerRole));
    Regroup(BASE_GAME_RULES, BLOCK_SEPARATOR, block, BLOCK_SEPARATOR, ModeExtra(mode));
    ThreeParts(BASE_GAME_RULES + BLOCK_SEPARATOR, block, BLOCK_SEPARATOR + ModeExtra(mode));
  }

  /** No two valid roles have the same length, so a role is known from its length alone. */
  lemma RoleLengthsDistinct(r1: string, r2: string)
    requires r1 in VALID_ROLES && r2 in VALID_ROLES
    requires |r1| == |r2|
    ensures r1 == r2
  {
  }

  /** Every valid role is free of surrounding whitespace. */
  lemma ValidRoleUnpadded(role: string)
    requires role in VALID_ROLES
    ensures Unpadded(role)
  {
  }

  /**
   * A valid role surrounded by any whitespace normalizes to that role,
   * e.g. " Factory " becomes "Factory".
   */
  lemma PaddedRoleKept(lead: string, role: string, trail: string)
    requires AllSpace(lead) && AllSpace(trail)
    requires role in VALID_ROLES
    ensures NormalizeRole(Some(lead + role + trail)) == role
  {
    ValidRoleUnpadded(role);
    StripPadded(lead, role, trail);
  }

  /** An input that does not trim to a valid role, the absent one included, gives exactly the Retailer's prompt. */
  lemma InvalidRoleActsAsRetailer(mode: string, playerRole: Option<string>)
    requires Strip(playerRole.GetOr("")) !in VALID_ROLES
    ensures NormalizeRole(playerRole) == DEFAULT_ROLE
    ensures BuildBeerGamePrompt(mode, playerRole) == BuildBeerGamePrompt(mode, Some(DEFAULT_ROLE))
  {
    ValidRoleUnpadded(DEFAULT_ROLE);
    StripUnpadded(DEFAULT_ROLE);
    PromptsAgreeIffRolesAgree(mode, playerRole, Some(DEFAULT_ROLE));
  }

  /** Normalizing twice is normalizing once: the builder never turns one valid role into another. */
  lemma NormalizeRoleIdempotent(playerRole: Option<string>)
    ensures NormalizeRole(Some(NormalizeRole(playerRole))) == NormalizeRole(playerRole)
  {
    var role := NormalizeRole(playerRole);
    ValidRoleUnpadded(role);
    StripUnpadded(role);
  }

  /**
   * Under one mode, two role inputs give the same prompt exactly when they
   * normalize to the same role: the role block is the only part that depends
   * on the role, and it names the role.
   */
  lemma PromptsAgreeIffRolesAgree(mode: string, r1: Option<string>, r2: Option<string>)
    ensures BuildBeerGamePrompt(mode, r1) == BuildBeerGamePrompt(mode, r2)
        <==> NormalizeRole(r1) == NormalizeRole(r2)
  {
    if BuildBeerGamePrompt(mode, r1) == BuildBeerGamePrompt(mode, r2) {
      RoleLengthsDistinct(NormalizeRole(r1), NormalizeRole(r2));
    }
  }

  /**
   * For one role, two modes give the same prompt exactly when both or neither
   * is the quantitative key; every other mode string shares the qualitative prompt.
   */
  lemma PromptsAgreeIffModeBlocksAgree(m1: string, m2: string, playerRole: Option<string>)
    ensures BuildBeerGamePrompt(m1, playerRole) == BuildBeerGamePrompt(m2, playerRole)
        <==> (m1 == Modes.QUANTITATIVE_MODE) == (m2 == Modes.QUANTITATIVE_MODE)
  {
    var front := BASE_GAME_RULES + BLOCK_SEPARATOR + RoleBlock(NormalizeRole(playerRole)) + BLOCK_SEPARATOR;
    CancelFront(front, ModeExtra(m1), ModeExtra(m2));
  }

  /** Two texts with a common beginning are equal exactly when their endings are. */
  lemma CancelFront(front: string, t1: string, t2: string)
    ensures front + t1 == front + t2 <==> t1 == t2
  {
    if front + t1 == front + t2 {
      assert t1 == (front + t1)[|front|..];
    }
  }
}
