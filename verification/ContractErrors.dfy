/**
 The error codes of the inheritance contract. `Panicked` is not a code of the contract: it stands
 for a trap (a failed checked operation or an explicit panic), which reverts like an error.
 */
module ContractErrors {
  datatype InheritanceError =
    | InvalidTotalAmount
    | MissingRequiredField
    | TooManyBeneficiaries
    | AllocationPercentageMismatch
    | DescriptionTooLong
    | InvalidBeneficiaryData
    | Unauthorized
    | PlanNotFound
    | InvalidBeneficiaryIndex
    | AllocationExceedsLimit
    | InvalidAllocation
    | InvalidClaimCode
    | InvalidClaimCodeRange
    | ClaimNotAllowedYet
    | AlreadyClaimed
    | BeneficiaryNotFound
    | PlanAlreadyDeactivated
    | PlanNotActive
    | AdminNotSet
    | NotAdmin
    | KycNotSubmitted
    | InsufficientBalance
    | FeeTransferFailed
    | InsufficientLiquidity
    | InheritanceAlreadyTriggered
    | EmergencyCooldownActive
    | NothingToClaim
    | EmergencyContactAlreadyExists
    | EmergencyContactNotFound
    | AlreadyApproved
    | InheritanceNotTriggered
    | NoOutstandingLoans
    | LoanRecallFailed
    | VaultNotFound
    | WillAlreadyLinked
    | WillAlreadyFinalized
    | WillVersionNotFound
    | Panicked
}
